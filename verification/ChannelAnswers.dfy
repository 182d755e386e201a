/** What the calls of the bounded channel answer: every answer of a sender or of the receiver is
    tied to the call's own argument and to the state the channel was in during the call
    (futures-channel/src/mpsc/mod.rs). */
module ChannelAnswers {
  import opened Runs
  import opened Channels
  import opened ChannelParking
  import opened ChannelGuarantees

  // ----- the receiver -----

  /** The message popped and not yet handed out. */
  function InHand(rx: ReceiverPc): seq<Message> {
    match rx
    case Unpark(_, m) => [m]
    case Notify(_, m, _) => [m]
    case Dec(_, m) => [m]
    case _ => []
  }

  /** The message handed out by the step between two positions of the receiver. */
  function HandedOut(rx: ReceiverPc, rx': ReceiverPc): seq<Message> {
    if !rx.Idle? && rx'.Idle? && rx'.a.GotMessage? then [rx'.a.m] else []
  }

  /** The messages the calls of the receiver have answered with up to state k, oldest first. */
  ghost function Received(r: Run<State, Step>, k: nat): seq<Message>
    requires |r.states| == |r.steps| + 1 && k < |r.states|
  {
    if k == 0 then [] else Received(r, k - 1) + HandedOut(r.states[k - 1].rx, r.states[k].rx)
  }

  lemma ReceiveHandsOut(s: State, o: ReceiverOp)
    requires CanReceive(s, o)
    ensures var s' := Receive(s, o);
            if o.PopStep? && s.msgs != [] then s'.popped == s.popped + InHand(s'.rx) && |InHand(s'.rx)| == 1 && InHand(s.rx) == [] == HandedOut(s.rx, s'.rx)
            else s'.popped == s.popped && HandedOut(s.rx, s'.rx) + InHand(s'.rx) == InHand(s.rx)
  {
    match o
    case NotifyStep => case CloseNotifyStep => case UnparkStep => case CloseDrainStep => case BeginReceive(_) =>
    case PopStep => case DecStep => case LoadStateStep => case Registered => case BeginClose => case CloseSetStep =>
  }

  lemma StepHandsOut(s: State, e: Step, log: seq<Message>)
    requires Enabled(s, e) && log + InHand(s.rx) == s.popped
    ensures var s' := Apply(s, e); log + HandedOut(s.rx, s'.rx) + InHand(s'.rx) == s'.popped
  {
    match e
    case Sending(t, o) => SendTouchesOne(s, t, o);
    case AwStep(a) =>
    case Receiving(o) =>
      ReceiveHandsOut(s, o);
      var s' := Receive(s, o);
      assert log + HandedOut(s.rx, s'.rx) + InHand(s'.rx) == log + (HandedOut(s.rx, s'.rx) + InHand(s'.rx));
  }

  /** The messages the calls of the receiver returned, and the one in its hands, are the messages
      popped from the queue, in their order. */
  lemma {:induction false} ReceivedIsPopped(r: Run<State, Step>, k: nat)
    requires IsRun(IsInit, Next, r) && k < |r.states|
    ensures Received(r, k) + InHand(r.states[k].rx) == r.states[k].popped
  {
    if k > 0 {
      ReceivedIsPopped(r, k - 1);
      StepOf(r, k - 1);
      StepHandsOut(r.states[k - 1], r.steps[k - 1], Received(r, k - 1));
    }
  }

  /** A call of the receiver begins. */
  predicate Calls(e: Step) { e.Receiving? && (e.ro.BeginReceive? || e.ro.BeginClose?) }

  predicate Within(m: Mode, mode: Mode) { m == mode || (mode.First? && m == Second(mode.w)) }

  /** The receiver is inside the call of this mode, or has answered it. */
  predicate Serves(rx: ReceiverPc, mode: Mode) {
    match rx
    case Pop(m) => Within(m, mode)
    case Unpark(m, _) => Within(m, mode)
    case Notify(m, _, _) => Within(m, mode)
    case Dec(m, _) => Within(m, mode)
    case LoadState(m) => Within(m, mode)
    case Registering(w) => mode == First(w)
    case Idle(GotMessage(_)) => true
    case Idle(EndOfStream) => true
    case Idle(TryEmpty) => mode == Try
    case Idle(Parked(w)) => mode == First(w)
    case _ => false
  }

  lemma ReceiveServes(s: State, o: ReceiverOp, mode: Mode)
    requires CanReceive(s, o) && !o.BeginReceive? && !o.BeginClose? && Serves(s.rx, mode) && !mode.Second?
    ensures Serves(Receive(s, o).rx, mode)
  {
    match o
    case NotifyStep => case CloseNotifyStep => case UnparkStep => case CloseDrainStep =>
    case PopStep => case DecStep => case LoadStateStep => case Registered => case CloseSetStep =>
  }

  /** A try_recv answers a message, the end, or TryEmpty; a poll_next a message, the end, or
      Pending with the waker it was given. */
  lemma AnswersFitTheCall(r: Run<State, Step>, i: nat, k: nat, mode: Mode)
    requires IsRun(IsInit, Next, r) && i < k < |r.states| && r.steps[i] == Receiving(BeginReceive(mode))
    requires forall j :: i < j < k ==> !Calls(r.steps[j])
    ensures Serves(r.states[k].rx, mode)
  {
    StepOf(r, i);
    var keep := (s: State) => Serves(s.rx, mode);
    forall j | i + 1 <= j < k && keep(r.states[j]) ensures keep(r.states[j + 1]) {
      StepOf(r, j);
      var s, e := r.states[j], r.steps[j];
      if e.Receiving? { ReceiveServes(s, e.ro, mode); } else if e.Sending? { SendTouchesOne(s, e.t, e.so); }
    }
    Persistence(keep, r, i + 1, k);
  }

  /** The last look at the message queue found nothing. */
  predicate FoundNone(rx: ReceiverPc) { rx.LoadState? || (rx.Idle? && (rx.a.TryEmpty? || rx.a.Parked? || rx.a.EndOfStream?)) }

  lemma FindsNone(s: State, e: Step)
    requires Enabled(s, e) && !FoundNone(s.rx) && FoundNone(Apply(s, e).rx)
    ensures e == Receiving(PopStep) && s.msgs == []
  {
    match e
    case Sending(t, o) => SendTouchesOne(s, t, o);
    case Receiving(o) =>
    case AwStep(a) =>
  }

  /** A call that finds no message looked at an empty queue, at a moment (the n-th step) inside
      this very call. */
  lemma EmptyMeansEmpty(r: Run<State, Step>, k: nat) returns (n: nat)
    requires IsRun(IsInit, Next, r) && k < |r.states| && FoundNone(r.states[k].rx)
    ensures n < k && r.steps[n] == Receiving(PopStep) && r.states[n].msgs == [] && r.states[n].popped == r.states[n].pushed
    ensures forall j :: n < j <= k ==> FoundNone(r.states[j].rx)
  {
    n := Origin((s: State) => FoundNone(s.rx), r, 0, k);
    StepOf(r, n);
    FindsNone(r.states[n], r.steps[n]);
    InvInEveryState(r, n);
    assert r.states[n].popped + [] == r.states[n].popped;
  }

  /** TryEmpty, or Pending. */
  predicate NotYet(rx: ReceiverPc) { rx.Idle? && (rx.a.TryEmpty? || rx.a.Parked?) }

  lemma SaysNotYet(s: State, e: Step)
    requires Enabled(s, e) && !NotYet(s.rx) && NotYet(Apply(s, e).rx)
    ensures e == Receiving(LoadStateStep) && (s.open || s.num > 0)
  {
    match e
    case Sending(t, o) => SendTouchesOne(s, t, o);
    case Receiving(o) =>
    case AwStep(a) =>
  }

  /** Neither is answered once the channel is closed and every accepted message received: the
      load of the state (the n-th step) saw it open, or a message still to come. */
  lemma NotYetMeansMore(r: Run<State, Step>, k: nat) returns (n: nat)
    requires IsRun(IsInit, Next, r) && k < |r.states| && NotYet(r.states[k].rx)
    ensures n < k && r.steps[n] == Receiving(LoadStateStep) && (r.states[n].open || r.states[n].num > 0)
    ensures forall j :: n < j <= k ==> NotYet(r.states[j].rx)
  {
    n := Origin((s: State) => NotYet(s.rx), r, 0, k);
    StepOf(r, n);
    SaysNotYet(r.states[n], r.steps[n]);
  }

  /** The steps a try_recv or poll_next has left at most. */
  function Left(rx: ReceiverPc): nat {
    match rx
    case Pop(m) => if m.First? then 9 else 5
    case LoadState(m) => if m.First? then 8 else 1
    case Registering(_) => 7
    case Unpark(_, _) => 3
    case Notify(_, _, _) => 2
    case Dec(_, _) => 1
    case _ => 0
  }

  predicate InCall(e: Step) { e.Receiving? && !e.ro.CloseSetStep? && !e.ro.CloseDrainStep? && !e.ro.CloseNotifyStep? }

  lemma LeftFalls(s: State, e: Step)
    requires Enabled(s, e) && !Calls(e)
    ensures Left(Apply(s, e).rx) + One(InCall(e)) <= Left(s.rx)
  {
    match e
    case Sending(t, o) => SendTouchesOne(s, t, o);
    case Receiving(o) =>
    case AwStep(a) =>
  }

  /** A call of try_recv takes at most five steps of the receiver, one of poll_next nine, not
      counting those inside `register`. */
  lemma ReceiveTerminates(r: Run<State, Step>, i: nat, k: nat, mode: Mode)
    requires IsRun(IsInit, Next, r) && i < k < |r.states| && r.steps[i] == Receiving(BeginReceive(mode))
    requires forall j :: i < j < k ==> !Calls(r.steps[j])
    ensures Count(InCall, r.steps, i + 1, k) <= if mode.First? then 9 else 5
  {
    StepOf(r, i);
    var keep := (s: State) => true;
    var rank := (s: State) => Left(s.rx);
    forall j | i + 1 <= j < k && keep(r.states[j])
      ensures keep(r.states[j + 1]) && rank(r.states[j + 1]) + (if InCall(r.steps[j]) then 1 else 0) <= rank(r.states[j])
    {
      StepOf(r, j);
      LeftFalls(r.states[j], r.steps[j]);
    }
    RankFalls(keep, rank, InCall, r, i + 1, k);
  }

  // ----- closing -----

  lemma ClosedOneStep(s: State, e: Step, t: Sid)
    requires Enabled(s, e) && !s.open && t in s.senders
    ensures var s' := Apply(s, e); !s'.open && t in s'.senders && s'.senders[t].accepted == s.senders[t].accepted
  {
    match e
    case Sending(u, o) => SendTouchesOne(s, u, o); ClosedSend(s, u, o);
    case Receiving(o) => ReceiveLeavesSent(s, o); ReceiveOpens(s, o);
    case AwStep(a) =>
  }

  lemma ClosedSend(s: State, t: Sid, o: SenderOp)
    requires CanSend(s, t, o) && !s.open
    ensures !Send(s, t, o).open && (!o.Clone? ==> Send(s, t, o).senders[t].accepted == s.senders[t].accepted)
  {
    match o
    case CloseChannel => case MarkClosed => case TrySend(m) => case CheckParkedStep => case Push2Step =>
    case SignalStep => case SenderDone => case PollReady(w) => case PollTaskStep => case Drop => case Clone =>
    case Park1Step => case Park2Step => case Park3Step => case Park4Step => case IncStep => case Push1Step =>
  }

  lemma ReceiveOpens(s: State, o: ReceiverOp)
    requires CanReceive(s, o) && !s.open
    ensures !Receive(s, o).open
  {
  }

  /** A closed channel stays closed and accepts nothing more from any sender. */
  lemma ClosedAcceptsNothing(r: Run<State, Step>, i: nat, k: nat, t: Sid)
    requires IsRun(IsInit, Next, r) && i <= k < |r.states| && !r.states[i].open && t in r.states[i].senders
    ensures var s := r.states[k]; !s.open && t in s.senders && s.senders[t].accepted == r.states[i].senders[t].accepted
  {
    var all := r.states[i].senders[t].accepted;
    var keep := (s: State) => !s.open && t in s.senders && s.senders[t].accepted == all;
    forall j | i <= j < k && keep(r.states[j]) ensures keep(r.states[j + 1]) {
      StepOf(r, j);
      ClosedOneStep(r.states[j], r.steps[j], t);
    }
    Persistence(keep, r, i, k);
  }

  /** The channel is closed, or t is about to close it. */
  predicate Closing(s: State, t: Sid) { t in s.senders && (s.senders[t].pc == CloseMark || !s.open) }

  lemma ClosingStays(s: State, e: Step, t: Sid)
    requires Enabled(s, e) && Closing(s, t)
    ensures Closing(Apply(s, e), t)
  {
    if !s.open {
      ClosedOneStep(s, e, t);
    } else {
      match e
      case Sending(u, o) => SendTouchesOne(s, u, o);
      case Receiving(o) => ReceiveLeavesSent(s, o);
      case AwStep(a) =>
    }
  }

  /** Once `close_channel`, called on the handle t, has returned, the channel is closed. */
  lemma CloseChannelCloses(r: Run<State, Step>, i: nat, k: nat, t: Sid)
    requires IsRun(IsInit, Next, r) && i < k < |r.states| && r.steps[i] == Sending(t, CloseChannel)
    ensures t in r.states[k].senders && (r.states[k].senders[t].pc != CloseMark ==> !r.states[k].open)
  {
    StepOf(r, i);
    var keep := (s: State) => Closing(s, t);
    forall j | i + 1 <= j < k && keep(r.states[j]) ensures keep(r.states[j + 1]) {
      StepOf(r, j);
      ClosingStays(r.states[j], r.steps[j], t);
    }
    Persistence(keep, r, i + 1, k);
  }

  /** The receiver is inside `close`, or has returned from it. */
  predicate ClosesRx(s: State) {
    s.rx == CloseSet || (!s.open && (s.rx == CloseDrain || s.rx.CloseNotify? || (s.rx == Idle(Closed) && s.drained)))
  }

  lemma ClosesRxStays(s: State, e: Step)
    requires Enabled(s, e) && ClosesRx(s) && !Calls(e)
    ensures ClosesRx(Apply(s, e))
  {
    match e
    case Sending(t, o) => SendTouchesOne(s, t, o); if !s.open { ClosedSend(s, t, o); }
    case Receiving(o) =>
    case AwStep(a) =>
  }

  /** `Receiver::close` returns with the channel closed and every parked handle taken. */
  lemma CloseCloses(r: Run<State, Step>, i: nat, k: nat)
    requires IsRun(IsInit, Next, r) && i < k < |r.states| && r.steps[i] == Receiving(BeginClose)
    requires forall j :: i < j < k ==> !Calls(r.steps[j])
    ensures r.states[k].rx.Idle? ==> r.states[k].rx.a == Closed && !r.states[k].open && r.states[k].drained
  {
    StepOf(r, i);
    var keep := (s: State) => ClosesRx(s);
    forall j | i + 1 <= j < k && keep(r.states[j]) ensures keep(r.states[j + 1]) {
      StepOf(r, j);
      ClosesRxStays(r.states[j], r.steps[j]);
    }
    Persistence(keep, r, i + 1, k);
  }

  lemma DroppedOneStep(s: State, e: Step, t: Sid)
    requires Enabled(s, e) && t in s.senders && !s.senders[t].alive
    ensures t in Apply(s, e).senders && !Apply(s, e).senders[t].alive
  {
    match e
    case Sending(u, o) => SendTouchesOne(s, u, o);
    case Receiving(o) => OthersLeave(s, e, t);
    case AwStep(a) =>
  }

  /** A dropped sender stays dropped: no further call of it begins. */
  lemma DroppedForGood(r: Run<State, Step>, i: nat, k: nat, t: Sid)
    requires IsRun(IsInit, Next, r) && i < k < |r.states| && r.steps[i] == Sending(t, Drop)
    ensures t in r.states[k].senders && !r.states[k].senders[t].alive
  {
    StepOf(r, i);
    var keep := (s: State) => t in s.senders && !s.senders[t].alive;
    forall j | i + 1 <= j < k && keep(r.states[j]) ensures keep(r.states[j + 1]) {
      StepOf(r, j);
      DroppedOneStep(r.states[j], r.steps[j], t);
    }
    Persistence(keep, r, i + 1, k);
  }

  predicate DropsBefore(r: Run<State, Step>, k: nat, t: Sid)
    requires k < |r.states| && |r.states| == |r.steps| + 1
  {
    exists i :: 0 <= i < k && r.steps[i] == Sending(t, Drop)
  }

  /** When every sender has been dropped and is through with it, the channel is closed. */
  lemma LastDropCloses(r: Run<State, Step>, k: nat)
    requires IsRun(IsInit, Next, r) && k < |r.states|
    requires forall t :: t in r.states[k].senders ==> DropsBefore(r, k, t) && r.states[k].senders[t].pc == Quiet
    ensures !r.states[k].open
  {
    var s := r.states[k];
    InvInEveryState(r, k);
    forall t | t in s.senders ensures !s.senders[t].alive {
      var i :| 0 <= i < k && r.steps[i] == Sending(t, Drop);
      DroppedForGood(r, i, k, t);
    }
    assert Live(s.senders) == {};
  }

  // ----- the senders -----

  /** A step that is not t's own leaves t where it is in its call. */
  lemma OthersLeave(s: State, e: Step, t: Sid)
    requires Enabled(s, e) && t in s.senders && !(e.Sending? && e.t == t)
    ensures var s' := Apply(s, e);
            && t in s'.senders
            && var x, x' := s.senders[t], s'.senders[t];
               x' == x.(isParked := x'.isParked, task := x'.task, waiting := x'.waiting)
    ensures var x, x' := s.senders[t], Apply(s, e).senders[t]; x'.isParked ==> x.isParked
  {
    match e
    case Sending(u, o) => SendTouchesOne(s, u, o);
    case Receiving(o) => ReceiveLeavesCall(s, o, t);
    case AwStep(a) =>
  }

  lemma ReceiveLeavesCall(s: State, o: ReceiverOp, t: Sid)
    requires CanReceive(s, o) && t in s.senders
    ensures var s' := Receive(s, o);
            && t in s'.senders
            && var x, x' := s.senders[t], s'.senders[t];
               && x' == x.(isParked := x'.isParked, task := x'.task, waiting := x'.waiting)
               && (x'.isParked ==> x.isParked)
  {
    match o
    case NotifyStep => case CloseNotifyStep => case UnparkStep => case CloseDrainStep => case BeginReceive(_) =>
    case PopStep => case DecStep => case LoadStateStep => case Registered => case BeginClose => case CloseSetStep =>
  }

  /** t begins a call. */
  predicate CallsOf(e: Step, t: Sid) {
    e.Sending? && e.t == t && (e.so.TrySend? || e.so.PollReady? || e.so.CloseChannel? || e.so.Drop?)
  }

  /** x is inside a try_send of m, or has answered it; before it, `before` had been accepted. */
  predicate Sends(x: Sender, m: Message, before: seq<Message>) {
    match x.pc
    case CheckParked(n) => n == m && x.accepted == before && x.said == Unasked
    case Inc(n) => n == m && x.accepted == before && x.said == Unasked
    case Park1(n) => n == m && x.accepted == before + [m] && x.said == Unasked
    case Park2(n) => n == m && x.accepted == before + [m] && x.said == Unasked
    case Park3(n) => n == m && x.accepted == before + [m] && x.said == Unasked
    case Park4(n) => n == m && x.accepted == before + [m] && x.said == Unasked
    case Push1(n) => n == m && x.accepted == before + [m] && x.said == Unasked
    case Push2 => x.accepted == before + [m] && x.said == Unasked
    case Signal => x.accepted == before + [m] && x.said == Sent
    case Signaled => x.accepted == before + [m] && x.said == Sent
    case Quiet => if x.said == Sent then x.accepted == before + [m] else (x.said == Full || x.said == Disconnected) && x.accepted == before
    case _ => false
  }

  lemma SendingStays(s: State, t: Sid, o: SenderOp, m: Message, before: seq<Message>)
    requires CanSend(s, t, o) && !o.Clone? && Sends(s.senders[t], m, before) && !CallsOf(Sending(t, o), t)
    ensures Sends(Send(s, t, o).senders[t], m, before)
  {
    match o
    case MarkClosed => case CheckParkedStep => case Push2Step =>
    case SignalStep => case SenderDone => case PollTaskStep =>
    case Park1Step => case Park2Step => case Park3Step => case Park4Step => case IncStep => case Push1Step =>
  }

  /** While t begins no other call, a try_send of m appends exactly m to what was accepted from
      t or nothing, and answers Sent in the first case, Full or Disconnected in the second. */
  lemma TrySendAcceptsItsArgument(r: Run<State, Step>, i: nat, k: nat, t: Sid, m: Message)
    requires IsRun(IsInit, Next, r) && i < k < |r.states| && r.steps[i] == Sending(t, TrySend(m))
    requires forall j :: i < j < k ==> !CallsOf(r.steps[j], t)
    ensures t in r.states[i].senders && t in r.states[k].senders
    ensures Sends(r.states[k].senders[t], m, r.states[i].senders[t].accepted)
  {
    StepOf(r, i);
    var before := r.states[i].senders[t].accepted;
    var keep := (s: State) => t in s.senders && Sends(s.senders[t], m, before);
    forall j | i + 1 <= j < k && keep(r.states[j]) ensures keep(r.states[j + 1]) {
      StepOf(r, j);
      if r.steps[j].Sending? && r.steps[j].t == t {
        SendingStays(r.states[j], t, r.steps[j].so, m, before);
      } else {
        OthersLeave(r.states[j], r.steps[j], t);
      }
    }
    Persistence(keep, r, i + 1, k);
  }

  /** What a try_send or poll_ready by t has said for certain: after Disconnected the channel is
      closed, and after HasCapacity, until t sends, t is not parked. */
  lemma AnswersStayTrue(r: Run<State, Step>, k: nat, t: Sid)
    requires IsRun(IsInit, Next, r) && k < |r.states| && t in r.states[k].senders
    ensures var s := r.states[k];
            && (s.senders[t].said == Disconnected ==> !s.open)
            && (s.senders[t].said == HasCapacity ==> !s.senders[t].isParked)
  {
    InvInEveryState(r, k);
    var s := r.states[k];
    assert SenderOk(s.senders[t], t in Contents(s.parked), HandleOf(s.rx) == Some(t), s.open, s.drained);
  }

  predicate Says(s: State, t: Sid, a: SenderAnswer) { t in s.senders && s.senders[t].said == a }

  lemma SaysFull(s: State, e: Step, t: Sid)
    requires Enabled(s, e) && t in s.senders && !Says(s, t, Full) && Says(Apply(s, e), t, Full)
    ensures s.senders[t].isParked
  {
    if e.Sending? && e.t == t { OwnSaysFull(s, t, e.so); } else { OthersLeave(s, e, t); }
  }

  lemma OwnSaysFull(s: State, t: Sid, o: SenderOp)
    requires CanSend(s, t, o) && !o.Clone? && s.senders[t].said != Full && Send(s, t, o).senders[t].said == Full
    ensures o.CheckParkedStep? && s.senders[t].isParked
  {
    match o
    case CloseChannel => case MarkClosed => case TrySend(m) => case CheckParkedStep => case Push2Step =>
    case SignalStep => case SenderDone => case PollReady(w) => case PollTaskStep => case Drop =>
    case Park1Step => case Park2Step => case Park3Step => case Park4Step => case IncStep => case Push1Step =>
  }

  /** A try_send answers Full only if the sender was parked at some moment of the call. */
  lemma FullMeansParked(r: Run<State, Step>, i: nat, k: nat, t: Sid, m: Message) returns (n: nat)
    requires IsRun(IsInit, Next, r) && i < k < |r.states| && r.steps[i] == Sending(t, TrySend(m))
    requires forall j :: i < j < k ==> !CallsOf(r.steps[j], t)
    requires t in r.states[k].senders && r.states[k].senders[t].said == Full
    ensures i < n < k && t in r.states[n].senders && r.states[n].senders[t].isParked
  {
    StepOf(r, i);
    n := Origin((s: State) => Says(s, t, Full), r, i + 1, k);
    StepOf(r, n);
    TrySendAcceptsItsArgument(r, i, n, t, m);
    SaysFull(r.states[n], r.steps[n], t);
  }

  predicate NotFull(s: State, t: Sid) {
    t in s.senders && s.senders[t].said != Full && (s.senders[t].pc.CheckParked? ==> !s.senders[t].isParked)
  }

  lemma NotFullStays(s: State, e: Step, t: Sid)
    requires Enabled(s, e) && NotFull(s, t) && !CallsOf(e, t)
    ensures NotFull(Apply(s, e), t)
  {
    if e.Sending? && e.t == t { OwnNotFull(s, t, e.so); } else { OthersLeave(s, e, t); }
  }

  lemma OwnNotFull(s: State, t: Sid, o: SenderOp)
    requires CanSend(s, t, o) && NotFull(s, t) && !CallsOf(Sending(t, o), t)
    ensures NotFull(Send(s, t, o), t)
  {
    match o
    case MarkClosed => case CheckParkedStep => case Push2Step =>
    case SignalStep => case SenderDone => case PollTaskStep =>
    case Park1Step => case Park2Step => case Park3Step => case Park4Step => case IncStep => case Push1Step =>
  }

  /** poll_ready has said that there is capacity: then the next try_send is not answered Full. */
  lemma ReadyIsHonoured(r: Run<State, Step>, i: nat, k: nat, t: Sid, m: Message)
    requires IsRun(IsInit, Next, r) && i < k < |r.states| && r.steps[i] == Sending(t, TrySend(m))
    requires forall j :: i < j < k ==> !CallsOf(r.steps[j], t)
    requires t in r.states[i].senders && r.states[i].senders[t].said == HasCapacity
    ensures t in r.states[k].senders && r.states[k].senders[t].said != Full
  {
    StepOf(r, i);
    AnswersStayTrue(r, i, t);
    var keep := (s: State) => NotFull(s, t);
    forall j | i + 1 <= j < k && keep(r.states[j]) ensures keep(r.states[j + 1]) {
      StepOf(r, j);
      NotFullStays(r.states[j], r.steps[j], t);
    }
    Persistence(keep, r, i + 1, k);
  }

  /** x is inside a poll_ready with waker w, or has answered it. */
  predicate Polls(x: Sender, w: Waker) {
    match x.pc
    case PollTask(v) => v == w && x.said == Unasked
    case Quiet => x.said == HasCapacity || x.said == MustWait || x.said == Disconnected
    case _ => false
  }

  lemma OwnPolls(s: State, t: Sid, o: SenderOp, w: Waker)
    requires CanSend(s, t, o) && !o.Clone? && Polls(s.senders[t], w) && !CallsOf(Sending(t, o), t)
    ensures Polls(Send(s, t, o).senders[t], w) && s.senders[t].pc.PollTask?
    ensures var x := Send(s, t, o).senders[t]; x.said == MustWait && s.senders[t].isParked ==> x.waiting == Some(w)
    ensures var x := Send(s, t, o).senders[t]; x.pc == Quiet && (x.said == MustWait <==> s.senders[t].isParked)
  {
    match o
    case PollTaskStep =>
    case _ => assert false;
  }

  lemma PollingStays(r: Run<State, Step>, i: nat, k: nat, t: Sid, w: Waker)
    requires IsRun(IsInit, Next, r) && i < k < |r.states| && r.steps[i] == Sending(t, PollReady(w))
    requires forall j :: i < j < k ==> !CallsOf(r.steps[j], t)
    ensures t in r.states[k].senders && Polls(r.states[k].senders[t], w)
  {
    StepOf(r, i);
    var keep := (s: State) => t in s.senders && Polls(s.senders[t], w);
    forall j | i + 1 <= j < k && keep(r.states[j]) ensures keep(r.states[j + 1]) {
      StepOf(r, j);
      if r.steps[j].Sending? && r.steps[j].t == t {
        OwnPolls(r.states[j], t, r.steps[j].so, w);
      } else {
        OthersLeave(r.states[j], r.steps[j], t);
      }
    }
    Persistence(keep, r, i + 1, k);
  }

  /** poll_ready answers Disconnected exactly if it finds the channel closed, and Pending only if
      the sender was parked at some moment of the call, after which t waits with the waker of
      this very call. */
  lemma PollReadyAnswers(r: Run<State, Step>, i: nat, k: nat, t: Sid, w: Waker)
    requires IsRun(IsInit, Next, r) && i < k < |r.states| && r.steps[i] == Sending(t, PollReady(w))
    requires forall j :: i < j < k ==> !CallsOf(r.steps[j], t)
    ensures t in r.states[k].senders && Polls(r.states[k].senders[t], w)
    ensures r.states[k].senders[t].said == Disconnected <==> !r.states[i].open
    ensures r.states[k].senders[t].said == MustWait ==>
              exists n :: i < n < k && t in r.states[n].senders && r.states[n].senders[t].isParked && Waits(r.states[n + 1], t, w)
  {
    StepOf(r, i);
    PollingStays(r, i, k, t, w);
    SaidSince(r, i, k, t, w);
    if r.states[k].senders[t].said == MustWait {
      var n := Origin((s: State) => Says(s, t, MustWait), r, i + 1, k);
      StepOf(r, n);
      PollingStays(r, i, n, t, w);
      if r.steps[n].Sending? && r.steps[n].t == t {
        OwnPolls(r.states[n], t, r.steps[n].so, w);
      } else {
        OthersLeave(r.states[n], r.steps[n], t);
      }
    }
  }

  /** Disconnected is said at once, or not at all. */
  lemma SaidSince(r: Run<State, Step>, i: nat, k: nat, t: Sid, w: Waker)
    requires IsRun(IsInit, Next, r) && i < k < |r.states| && r.steps[i] == Sending(t, PollReady(w))
    requires forall j :: i < j < k ==> !CallsOf(r.steps[j], t)
    ensures t in r.states[k].senders && (r.states[k].senders[t].said == Disconnected <==> !r.states[i].open)
  {
    StepOf(r, i);
    var closed := !r.states[i].open;
    var keep := (s: State) => t in s.senders && (s.senders[t].said == Disconnected <==> closed);
    forall j | i + 1 <= j < k && keep(r.states[j]) ensures keep(r.states[j + 1]) {
      StepOf(r, j);
      PollingStays(r, i, j, t, w);
      if r.steps[j].Sending? && r.steps[j].t == t {
        OwnPolls(r.states[j], t, r.steps[j].so, w);
        assert r.steps[j].so.PollTaskStep?;
      } else {
        OthersLeave(r.states[j], r.steps[j], t);
      }
    }
    Persistence(keep, r, i + 1, k);
  }

  // ----- parking -----

  /** t is parked, or counted past the buffer. */
  predicate PastBuffer(s: State, t: Sid) { t in s.senders && (s.senders[t].isParked || AboutToPark(s.senders[t].pc)) }

  lemma ParksNow(s: State, e: Step, t: Sid)
    requires Enabled(s, e) && !PastBuffer(s, t) && PastBuffer(Apply(s, e), t)
    ensures e == Sending(t, IncStep) && s.open && s.num >= s.buffer
  {
    if e.Sending? && e.t == t { OwnParks(s, t, e.so); }
    else if t in s.senders { OthersLeave(s, e, t); }
    else if e.Sending? { SendTouchesOne(s, e.t, e.so); }
    else if e.Receiving? { ReceiveLeavesSent(s, e.ro); }
  }

  lemma OwnParks(s: State, t: Sid, o: SenderOp)
    requires CanSend(s, t, o) && !PastBuffer(s, t) && PastBuffer(Send(s, t, o), t)
    ensures o.IncStep? && s.open && s.num >= s.buffer
  {
    match o
    case CloseChannel => case MarkClosed => case TrySend(m) => case CheckParkedStep => case Push2Step =>
    case SignalStep => case SenderDone => case PollReady(w) => case PollTaskStep => case Drop => case Clone =>
    case Park1Step => case Park2Step => case Park3Step => case Park4Step => case IncStep => case Push1Step =>
  }

  /** A sender is parked only by sending a message that found the buffer full, and has been
      parked ever since. */
  lemma ParksOnlyPastBuffer(r: Run<State, Step>, k: nat, t: Sid) returns (n: nat)
    requires IsRun(IsInit, Next, r) && k < |r.states| && t in r.states[k].senders && r.states[k].senders[t].isParked
    ensures n < k && r.steps[n] == Sending(t, IncStep) && r.states[n].open && r.states[n].num >= r.states[n].buffer
    ensures forall j :: n < j <= k ==> PastBuffer(r.states[j], t)
  {
    n := Origin((s: State) => PastBuffer(s, t), r, 0, k);
    StepOf(r, n);
    ParksNow(r.states[n], r.steps[n], t);
  }
}
