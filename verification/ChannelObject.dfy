/** The bounded channel as an object shared by its senders and its receiver: each method is one
    atomic step of futures-channel/src/mpsc/mod.rs, performed on the fields.  `state` is the
    packed word. */
module ChannelObject {
  import opened Runs
  import opened Channels
  import G = ChannelGuarantees
  import W = ChannelWakeups
  import P = PackedStates
  import M = MessageQueues
  import A = AtomicWakers

  class BoundedChannel {
    const buffer: nat
    const recvTask: A.AtomicWaker
    var state: P.Word
    var numSenders: nat
    var messageQueue: seq<M.Slot<Message>>
    var parkedQueue: seq<M.Slot<Sid>>
    var senders: map<Sid, Sender>
    var receiver: ReceiverPc
    ghost var drained: bool
    ghost var wakes: seq<Waker>
    ghost var pushed: seq<Message>
    ghost var popped: seq<Message>

    ghost function View(): State
      reads this, recvTask
    {
      State(buffer, P.DecodeState(state).isOpen, P.DecodeState(state).numMessages, messageQueue, parkedQueue,
            numSenders, senders, receiver, recvTask.View(), drained, wakes, pushed, popped)
    }

    ghost predicate Valid()
      reads this, recvTask
    {
      Reachable(View())
    }

    constructor (n: nat, t: Sid)
      requires n < P.MAX_BUFFER && t != RX
      ensures View() == Init(n, t) && fresh(recvTask) && Valid()
    {
      buffer := n;
      recvTask := new A.AtomicWaker();
      state, numSenders, messageQueue, parkedQueue := P.OPEN_MASK, 1, [], [];
      senders, receiver := map[t := FRESH], Idle(Nothing);
      drained, wakes, pushed, popped := false, [], [], [];
      new;
      StartIsReachable(n, t);
    }

    // ----- senders -----

    method CloneSender(t: Sid)
      requires Valid() && CanSend(View(), t, Clone)
      modifies this
      ensures View() == DoClone(old(View()), t) && Valid()
    {
      Onwards(View(), Sending(t, Clone), Apply(View(), Sending(t, Clone)));
      numSenders := numSenders + 1;
      senders := senders[t := FRESH];
    }

    method DropSender(t: Sid)
      requires Valid() && CanSend(View(), t, Drop)
      modifies this
      ensures View() == DoDrop(old(View()), t) && Valid()
    {
      Onwards(View(), Sending(t, Drop), Apply(View(), Sending(t, Drop)));
      var prev := numSenders;
      numSenders := prev - 1;
      senders := senders[t := senders[t].(alive := false, pc := if prev == 1 then CloseMark else Quiet)];
    }

    method BeginCloseChannel(t: Sid)
      requires Valid() && CanSend(View(), t, CloseChannel)
      modifies this
      ensures View() == DoCloseChannel(old(View()), t) && Valid()
    {
      Onwards(View(), Sending(t, CloseChannel), Apply(View(), Sending(t, CloseChannel)));
      senders := senders[t := senders[t].(pc := CloseMark)];
    }

    /** `set_closed`. */
    method MarkClosedBySender(t: Sid)
      requires Valid() && CanSend(View(), t, MarkClosed)
      modifies this
      ensures View() == DoMarkClosed(old(View()), t) && Valid()
    {
      Onwards(View(), Sending(t, MarkClosed), Apply(View(), Sending(t, MarkClosed)));
      P.ClearOpenKeepsCount(state);
      if P.DecodeState(state).isOpen {
        state := P.FetchClearOpen(state);
      }
      senders := senders[t := senders[t].(pc := Signal)];
    }

    method BeginTrySend(t: Sid, m: Message)
      requires Valid() && CanSend(View(), t, TrySend(m))
      modifies this
      ensures View() == DoTrySend(old(View()), t, m) && Valid()
    {
      Onwards(View(), Sending(t, TrySend(m)), Apply(View(), Sending(t, TrySend(m))));
      if senders[t].maybeParked {
        senders := senders[t := senders[t].(said := Unasked, pc := CheckParked(m))];
      } else {
        senders := senders[t := senders[t].(said := Unasked, pc := Inc(m))];
      }
    }

    /** `poll_unparked(None)`, under the lock of the sender's task. */
    method CheckParkedTask(t: Sid) returns (full: bool)
      requires Valid() && CanSend(View(), t, CheckParkedStep)
      modifies this
      ensures View() == DoCheckParked(old(View()), t) && Valid()
      ensures full <==> old(senders)[t].isParked
    {
      Onwards(View(), Sending(t, CheckParkedStep), Apply(View(), Sending(t, CheckParkedStep)));
      var x := senders[t];
      full := x.isParked;
      if !full {
        senders := senders[t := x.(maybeParked := false, pc := Inc(x.pc.m))];
      } else {
        senders := senders[t := x.(task := None, waiting := None, said := Full, pc := Quiet)];
      }
    }

    /** The successful round of the loop in `inc_num_messages`, and `park_self`. */
    method IncNumMessages(t: Sid) returns (counted: Option<nat>)
      requires Valid() && CanSend(View(), t, IncStep)
      modifies this
      ensures View() == DoInc(old(View()), t) && Valid()
      ensures counted == if old(View()).open then Some(old(View()).num + 1) else None
    {
      Onwards(View(), Sending(t, IncStep), Apply(View(), Sending(t, IncStep)));
      var x, s := senders[t], P.DecodeState(state);
      if !s.isOpen {
        counted := None;
        senders := senders[t := x.(said := Disconnected, pc := Quiet)];
      } else {
        var next := P.Next(s);
        P.IncrementIff(state);
        state := P.EncodeState(next);
        counted := Some(next.numMessages);
        var parkSelf := next.numMessages > buffer;
        senders := senders[t := x.(pc := if parkSelf then Park1(x.pc.m) else Push1(x.pc.m), accepted := x.accepted + [x.pc.m])];
      }
    }

    method ParkTask(t: Sid)
      requires Valid() && CanSend(View(), t, Park1Step)
      modifies this
      ensures View() == DoPark1(old(View()), t) && Valid()
    {
      Onwards(View(), Sending(t, Park1Step), Apply(View(), Sending(t, Park1Step)));
      var x := senders[t];
      senders := senders[t := x.(task := None, isParked := true, pc := Park2(x.pc.m))];
    }

    method PushHandle(t: Sid)
      requires Valid() && CanSend(View(), t, Park2Step)
      modifies this
      ensures View() == DoPark2(old(View()), t) && Valid()
    {
      Onwards(View(), Sending(t, Park2Step), Apply(View(), Sending(t, Park2Step)));
      parkedQueue := parkedQueue + [M.Slot(t, Some(t))];
      senders := senders[t := senders[t].(pc := Park3(senders[t].pc.m))];
    }

    method LinkHandle(t: Sid)
      requires Valid() && CanSend(View(), t, Park3Step)
      modifies this
      ensures View() == DoPark3(old(View()), t) && Valid()
    {
      Onwards(View(), Sending(t, Park3Step), Apply(View(), Sending(t, Park3Step)));
      parkedQueue := M.Linked(parkedQueue, t);
      senders := senders[t := senders[t].(pc := Park4(senders[t].pc.m))];
    }

    /** `self.maybe_parked = state.is_open`. */
    method FinishPark(t: Sid)
      requires Valid() && CanSend(View(), t, Park4Step)
      modifies this
      ensures View() == DoPark4(old(View()), t) && Valid()
    {
      Onwards(View(), Sending(t, Park4Step), Apply(View(), Sending(t, Park4Step)));
      senders := senders[t := senders[t].(maybeParked := P.DecodeState(state).isOpen, pc := Push1(senders[t].pc.m))];
    }

    method PushMessage(t: Sid)
      requires Valid() && CanSend(View(), t, Push1Step)
      modifies this
      ensures View() == DoPush1(old(View()), t) && Valid()
    {
      Onwards(View(), Sending(t, Push1Step), Apply(View(), Sending(t, Push1Step)));
      var m := senders[t].pc.m;
      messageQueue := messageQueue + [M.Slot(m, Some(t))];
      pushed := pushed + [m];
      senders := senders[t := senders[t].(pc := Push2)];
    }

    method LinkMessage(t: Sid)
      requires Valid() && CanSend(View(), t, Push2Step)
      modifies this
      ensures View() == DoPush2(old(View()), t) && Valid()
    {
      Onwards(View(), Sending(t, Push2Step), Apply(View(), Sending(t, Push2Step)));
      messageQueue := M.Linked(messageQueue, t);
      senders := senders[t := senders[t].(said := Sent, pc := Signal)];
    }

    /** `recv_task.wake()`, up to its first atomic step. */
    method SignalReceiver(t: Sid)
      requires Valid() && CanSend(View(), t, SignalStep)
      modifies this, recvTask
      ensures View() == DoSignal(old(View()), t) && Valid()
    {
      Onwards(View(), Sending(t, SignalStep), Apply(View(), Sending(t, SignalStep)));
      W.WakerIsSound(View());
      recvTask.BeginWake(t);
      senders := senders[t := senders[t].(pc := Signaled)];
    }

    method FinishSender(t: Sid)
      requires Valid() && CanSend(View(), t, SenderDone)
      modifies this
      ensures View() == DoSenderDone(old(View()), t) && Valid()
    {
      Onwards(View(), Sending(t, SenderDone), Apply(View(), Sending(t, SenderDone)));
      senders := senders[t := senders[t].(pc := Quiet)];
    }

    /** `poll_ready`, up to taking the lock of the sender's task. */
    method PollReadySender(t: Sid, w: Waker) returns (ready: Option<bool>)
      requires Valid() && CanSend(View(), t, PollReady(w))
      modifies this
      ensures View() == DoPollReady(old(View()), t, w) && Valid()
      ensures ready == if !old(View()).open then Some(false) else if !old(senders)[t].maybeParked then Some(true) else None
    {
      Onwards(View(), Sending(t, PollReady(w)), Apply(View(), Sending(t, PollReady(w))));
      if !P.DecodeState(state).isOpen {
        ready := Some(false);
        senders := senders[t := senders[t].(said := Disconnected)];
      } else if !senders[t].maybeParked {
        ready := Some(true);
        senders := senders[t := senders[t].(said := HasCapacity)];
      } else {
        ready := None;
        senders := senders[t := senders[t].(said := Unasked, pc := PollTask(w))];
      }
    }

    /** `poll_unparked(Some(cx))`, under the lock. */
    method PollUnparked(t: Sid) returns (p: Poll<()>)
      requires Valid() && CanSend(View(), t, PollTaskStep)
      modifies this
      ensures View() == DoPollTask(old(View()), t) && Valid()
      ensures p.Pending? <==> old(senders)[t].isParked
      ensures p.Pending? ==> senders[t].waiting == Some(old(senders)[t].pc.w)
    {
      Onwards(View(), Sending(t, PollTaskStep), Apply(View(), Sending(t, PollTaskStep)));
      var x := senders[t];
      if !x.isParked {
        p := Ready(());
        senders := senders[t := x.(maybeParked := false, said := HasCapacity, pc := Quiet)];
      } else {
        p := Pending;
        senders := senders[t := x.(task := Some(x.pc.w), waiting := Some(x.pc.w), said := MustWait, pc := Quiet)];
      }
    }

    /** A further step inside `register` or `wake` of `recv_task`. */
    method GoOnInRecvTask(t: Tid)
      requires Valid() && t in recvTask.pc
      modifies recvTask
      ensures A.Enabled(old(recvTask.View()), A.StepOf(old(recvTask.pc)[t], t))
      ensures View() == DoAwStep(old(View()), A.StepOf(old(recvTask.pc)[t], t)) && Valid()
    {
      W.WakerIsSound(View());
      A.StepIsEnabled(recvTask.View(), t);
      ghost var e := AwStep(A.StepOf(recvTask.pc[t], t));
      Onwards(View(), e, Apply(View(), e));
      recvTask.GoOn(t);
    }

    // ----- the receiver -----

    method BeginReceiving(mode: Mode)
      requires Valid() && CanReceive(View(), BeginReceive(mode))
      modifies this
      ensures View() == DoBeginReceive(old(View()), mode) && Valid()
    {
      Onwards(View(), Receiving(BeginReceive(mode)), Apply(View(), Receiving(BeginReceive(mode))));
      receiver := Pop(mode);
    }

    method PopMessage()
      requires Valid() && CanReceive(View(), PopStep)
      modifies this
      ensures View() == DoPop(old(View())) && Valid()
    {
      Onwards(View(), Receiving(PopStep), Apply(View(), Receiving(PopStep)));
      if messageQueue == [] {
        receiver := LoadState(receiver.mode);
      } else {
        var m := messageQueue[0].value;
        messageQueue := messageQueue[1..];
        popped := popped + [m];
        receiver := Unpark(receiver.mode, m);
      }
    }

    /** `unpark_one`, up to taking the lock of the sender's task. */
    method UnparkOne()
      requires Valid() && CanReceive(View(), UnparkStep)
      modifies this
      ensures View() == DoUnpark(old(View())) && Valid()
    {
      Onwards(View(), Receiving(UnparkStep), Apply(View(), Receiving(UnparkStep)));
      if parkedQueue == [] {
        receiver := Dec(receiver.mode, receiver.m);
      } else {
        var h := parkedQueue[0].value;
        parkedQueue := parkedQueue[1..];
        receiver := Notify(receiver.mode, receiver.m, h);
      }
    }

    /** `task.lock().unwrap().notify()`. */
    method NotifySender()
      requires Valid() && (CanReceive(View(), NotifyStep) || CanReceive(View(), CloseNotifyStep))
      modifies this
      ensures View() == (if old(receiver).Notify? then DoNotify(old(View())) else DoCloseNotify(old(View()))) && Valid()
    {
      Onwards(View(), Receiving(if receiver.Notify? then NotifyStep else CloseNotifyStep), Apply(View(), Receiving(if receiver.Notify? then NotifyStep else CloseNotifyStep)));
      var h := receiver.h;
      if h in senders {
        var x := senders[h];
        senders := senders[h := x.(isParked := false, task := None, waiting := None)];
        if x.task.Some? {
          wakes := wakes + [x.task.value];
        }
      }
      receiver := if receiver.Notify? then Dec(receiver.mode, receiver.m) else CloseDrain;
    }

    /** `state.fetch_sub(1)`: never on a count of zero. */
    method DecNumMessages()
      requires Valid() && receiver.Dec?
      modifies this
      ensures CanReceive(old(View()), DecStep) && View() == DoDec(old(View())) && Valid()
    {
      G.DecNeverStuck(View());
      Onwards(View(), Receiving(DecStep), Apply(View(), Receiving(DecStep)));
      P.DecrementIff(state);
      state := P.FetchSubOne(state);
      receiver := Idle(GotMessage(receiver.m));
    }

    /** The branch of `next_message` for an empty queue, and the match of `poll_next` or
        `try_recv` on its result. */
    method LoadChannelState()
      requires Valid() && CanReceive(View(), LoadStateStep)
      modifies this, recvTask
      ensures View() == DoLoadState(old(View())) && Valid()
    {
      Onwards(View(), Receiving(LoadStateStep), Apply(View(), Receiving(LoadStateStep)));
      var s := P.DecodeState(state);
      if !s.isOpen && s.numMessages == 0 {
        receiver := Idle(EndOfStream);
      } else {
        match receiver.mode
        case Try => receiver := Idle(TryEmpty);
        case First(w) =>
          W.WakerIsSound(View());
          recvTask.BeginRegister(RX, w);
          receiver := Registering(w);
        case Second(w) => receiver := Idle(Parked(w));
      }
    }

    method LookAgain()
      requires Valid() && CanReceive(View(), Registered)
      modifies this
      ensures View() == DoRegistered(old(View())) && Valid()
    {
      Onwards(View(), Receiving(Registered), Apply(View(), Receiving(Registered)));
      receiver := Pop(Second(receiver.w));
    }

    method BeginClosing()
      requires Valid() && CanReceive(View(), BeginClose)
      modifies this
      ensures View() == DoBeginClose(old(View())) && Valid()
    {
      Onwards(View(), Receiving(BeginClose), Apply(View(), Receiving(BeginClose)));
      receiver := CloseSet;
    }

    method MarkClosedByReceiver()
      requires Valid() && CanReceive(View(), CloseSetStep)
      modifies this
      ensures View() == DoCloseSet(old(View())) && Valid()
    {
      Onwards(View(), Receiving(CloseSetStep), Apply(View(), Receiving(CloseSetStep)));
      P.ClearOpenKeepsCount(state);
      if P.DecodeState(state).isOpen {
        state := P.FetchClearOpen(state);
      }
      receiver := CloseDrain;
    }

    method DrainParked()
      requires Valid() && CanReceive(View(), CloseDrainStep)
      modifies this
      ensures View() == DoCloseDrain(old(View())) && Valid()
    {
      Onwards(View(), Receiving(CloseDrainStep), Apply(View(), Receiving(CloseDrainStep)));
      if parkedQueue == [] {
        receiver := Idle(Closed);
        drained := true;
      } else {
        var h := parkedQueue[0].value;
        parkedQueue := parkedQueue[1..];
        receiver := CloseNotify(h);
      }
    }
  }
}
