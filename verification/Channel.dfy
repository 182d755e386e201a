/** The bounded channel of futures-channel/src/mpsc/mod.rs.

    Any number of senders, each used by one thread at a time, and one receiver.  The message
    queue and the queue of parked senders are the slot sequences that MessageQueues shows
    `mpsc/queue.rs` to be; `recv_task` is the AtomicWaker of its own module.  A CAS loop on
    `state` is one step, its last iteration; `pop_spin` waits while the oldest slot's link is
    due, so its step is then not enabled. */
module Channels {
  import opened Runs
  import opened Chains
  import M = MessageQueues
  import A = AtomicWakers
  import P = PackedStates

  type Sid = Tid

  /** The thread of the receiver; senders have other ids. */
  const RX: Tid := 0

  datatype Message = Message(from: Sid, body: nat)

  /** A sender inside one of its operations. */
  datatype SenderPc =
    | Quiet
    | CheckParked(m: Message)      // try_send with maybe_parked set: the lock comes next
    | Inc(m: Message)              // inc_num_messages
    | Park1(m: Message)            // counted, past the buffer: marks its task parked
    | Park2(m: Message)            // parked_queue.push: head swap
    | Park3(m: Message)            // parked_queue.push: link
    | Park4(m: Message)            // looks whether the channel was closed meanwhile
    | Push1(m: Message)            // message_queue.push: head swap
    | Push2                        // message_queue.push: link
    | Signal                       // recv_task.wake() comes next
    | Signaled                     // inside recv_task.wake()
    | PollTask(w: Waker)           // poll_ready saw the channel open; poll_unparked(Some(cx))
    | CloseMark                    // close_channel: set_closed comes next

  /** The answer of a sender's last try_send (Sent, Full, Disconnected) or poll_ready
      (HasCapacity, MustWait, Disconnected), or none while such a call is in progress. */
  datatype SenderAnswer = Unasked | Sent | Full | Disconnected | HasCapacity | MustWait

  /** `BoundedSenderInner` with its `SenderTask`.  `waiting` is the waker of the last poll_ready
      that returned Pending, unless it was woken or a later call on the handle replaced it;
      `accepted` are the messages of its successful sends, oldest first. */
  datatype Sender = Sender(
    alive: bool, maybeParked: bool, task: Option<Waker>, isParked: bool, pc: SenderPc,
    waiting: Option<Waker>, accepted: seq<Message>, said: SenderAnswer)

  const FRESH := Sender(true, false, None, false, Quiet, None, [], Unasked)

  /** Which call of `next_message`: from try_recv, or the first or second one of poll_next. */
  datatype Mode = Try | First(w: Waker) | Second(w: Waker)

  datatype Answer = Nothing | GotMessage(m: Message) | TryEmpty | Parked(w: Waker) | EndOfStream | Closed

  datatype ReceiverPc =
    | Idle(a: Answer)
    | Pop(mode: Mode)                          // message_queue.pop_spin
    | Unpark(mode: Mode, m: Message)           // parked_queue.pop_spin
    | Notify(mode: Mode, m: Message, h: Sid)   // task.lock().notify()
    | Dec(mode: Mode, m: Message)              // dec_num_messages
    | LoadState(mode: Mode)                    // no message: loads the state
    | Registering(w: Waker)                    // recv_task.register
    | CloseSet                                 // close: set_closed
    | CloseDrain                               // close: pops a parked handle
    | CloseNotify(h: Sid)

  datatype State = State(
    buffer: nat,
    open: bool, num: nat,                      // the two halves of `state`
    msgs: seq<M.Slot<Message>>, parked: seq<M.Slot<Sid>>,
    numSenders: nat,
    senders: map<Sid, Sender>,
    rx: ReceiverPc,
    aw: A.State,
    drained: bool,                             // Receiver::close has run to its end
    wakes: seq<Waker>,                         // the wakers of senders woken so far
    pushed: seq<Message>, popped: seq<Message>)

  /** `channel(buffer)`, which asserts that the buffer is not too large. */
  ghost predicate IsInit(s: State) {
    exists buffer: nat, t: Sid :: buffer < P.MAX_BUFFER && t != RX && s == Init(buffer, t)
  }

  function Init(buffer: nat, t: Sid): State {
    State(buffer, true, 0, [], [], 1, map[t := FRESH], Idle(Nothing), A.Init, false, [], [], [])
  }

  function Put(s: State, t: Sid, x: Sender): State { s.(senders := s.senders[t := x]) }

  function GoTo(s: State, t: Sid, pc: SenderPc): State
    requires t in s.senders
  {
    Put(s, t, s.senders[t].(pc := pc))
  }

  // ----- senders -----

  function DoClone(s: State, t: Sid): State { s.(senders := s.senders[t := FRESH], numSenders := s.numSenders + 1) }

  /** `num_senders.fetch_sub(1)`; the last sender closes the channel. */
  function DoDrop(s: State, t: Sid): State
    requires t in s.senders && s.numSenders >= 1
  {
    Put(s, t, s.senders[t].(alive := false, pc := if s.numSenders == 1 then CloseMark else Quiet)).(numSenders := s.numSenders - 1)
  }

  /** `Sender::close_channel` on a live handle. */
  function DoCloseChannel(s: State, t: Sid): State
    requires t in s.senders
  {
    GoTo(s, t, CloseMark)
  }

  /** `set_closed` of `close_channel`; `recv_task.wake()` follows. */
  function DoMarkClosed(s: State, t: Sid): State
    requires t in s.senders
  {
    GoTo(s, t, Signal).(open := false)
  }

  function DoTrySend(s: State, t: Sid, m: Message): State
    requires t in s.senders
  {
    Put(s, t, s.senders[t].(said := Unasked, pc := if s.senders[t].maybeParked then CheckParked(m) else Inc(m)))
  }

  /** `poll_unparked(None)` under the lock: Full, or go on. */
  function DoCheckParked(s: State, t: Sid): State
    requires t in s.senders && s.senders[t].pc.CheckParked?
  {
    var x := s.senders[t];
    if x.isParked then Put(s, t, x.(task := None, waiting := None, said := Full, pc := Quiet))
    else Put(s, t, x.(maybeParked := false, pc := Inc(x.pc.m)))
  }

  /** `inc_num_messages`: Disconnected, or counted, and parked if past the buffer. */
  function DoInc(s: State, t: Sid): State
    requires t in s.senders && s.senders[t].pc.Inc?
  {
    var x := s.senders[t];
    if !s.open then Put(s, t, x.(said := Disconnected, pc := Quiet))
    else Put(s, t, x.(pc := if s.num + 1 > s.buffer then Park1(x.pc.m) else Push1(x.pc.m),
                      accepted := x.accepted + [x.pc.m])).(num := s.num + 1)
  }

  function DoPark1(s: State, t: Sid): State
    requires t in s.senders && s.senders[t].pc.Park1?
  {
    Put(s, t, s.senders[t].(task := None, isParked := true, pc := Park2(s.senders[t].pc.m)))
  }

  function DoPark2(s: State, t: Sid): State
    requires t in s.senders && s.senders[t].pc.Park2?
  {
    GoTo(s, t, Park3(s.senders[t].pc.m)).(parked := s.parked + [M.Slot(t, Some(t))])
  }

  function DoPark3(s: State, t: Sid): State
    requires t in s.senders && s.senders[t].pc.Park3?
  {
    GoTo(s, t, Park4(s.senders[t].pc.m)).(parked := M.Linked(s.parked, t))
  }

  function DoPark4(s: State, t: Sid): State
    requires t in s.senders && s.senders[t].pc.Park4?
  {
    Put(s, t, s.senders[t].(maybeParked := s.open, pc := Push1(s.senders[t].pc.m)))
  }

  function DoPush1(s: State, t: Sid): State
    requires t in s.senders && s.senders[t].pc.Push1?
  {
    var m := s.senders[t].pc.m;
    GoTo(s, t, Push2).(msgs := s.msgs + [M.Slot(m, Some(t))], pushed := s.pushed + [m])
  }

  /** The message is in the queue, and all that is left of the send is to wake the receiver. */
  function DoPush2(s: State, t: Sid): State
    requires t in s.senders
  {
    Put(s, t, s.senders[t].(said := Sent, pc := Signal)).(msgs := M.Linked(s.msgs, t))
  }

  function DoSignal(s: State, t: Sid): State
    requires t in s.senders
  {
    GoTo(s, t, Signaled).(aw := A.DoWakeFetchOr(s.aw, t))
  }

  function DoSenderDone(s: State, t: Sid): State
    requires t in s.senders
  {
    GoTo(s, t, Quiet)
  }

  /** `poll_ready`: an error when closed, ready at once when certainly not parked. */
  function DoPollReady(s: State, t: Sid, w: Waker): State
    requires t in s.senders
  {
    var x := s.senders[t];
    if !s.open then Put(s, t, x.(said := Disconnected))
    else if !x.maybeParked then Put(s, t, x.(said := HasCapacity))
    else Put(s, t, x.(said := Unasked, pc := PollTask(w)))
  }

  function DoPollTask(s: State, t: Sid): State
    requires t in s.senders && s.senders[t].pc.PollTask?
  {
    var x := s.senders[t];
    if x.isParked then Put(s, t, x.(task := Some(x.pc.w), waiting := Some(x.pc.w), said := MustWait, pc := Quiet))
    else Put(s, t, x.(maybeParked := false, said := HasCapacity, pc := Quiet))
  }

  // ----- the receiver -----

  function DoBeginReceive(s: State, mode: Mode): State { s.(rx := Pop(mode)) }

  function DoPop(s: State): State
    requires s.rx.Pop?
  {
    if s.msgs == [] then s.(rx := LoadState(s.rx.mode))
    else s.(msgs := s.msgs[1..], popped := s.popped + [s.msgs[0].value], rx := Unpark(s.rx.mode, s.msgs[0].value))
  }

  function DoUnpark(s: State): State
    requires s.rx.Unpark?
  {
    if s.parked == [] then s.(rx := Dec(s.rx.mode, s.rx.m))
    else s.(parked := s.parked[1..], rx := Notify(s.rx.mode, s.rx.m, s.parked[0].value))
  }

  /** `SenderTask::notify`. */
  function Notified(s: State, h: Sid): State {
    if h !in s.senders then s
    else
      var x := s.senders[h];
      Put(s, h, x.(isParked := false, task := None, waiting := None)).(
      wakes := if x.task.Some? then s.wakes + [x.task.value] else s.wakes)
  }

  function DoNotify(s: State): State
    requires s.rx.Notify?
  {
    Notified(s, s.rx.h).(rx := Dec(s.rx.mode, s.rx.m))
  }

  /** `state.fetch_sub(1)`: stuck if it would borrow, which `Inv` excludes. */
  function DoDec(s: State): State
    requires s.rx.Dec? && s.num >= 1
  {
    s.(num := s.num - 1, rx := Idle(GotMessage(s.rx.m)))
  }

  function DoLoadState(s: State): State
    requires s.rx.LoadState?
  {
    if !s.open && s.num == 0 then s.(rx := Idle(EndOfStream))
    else match s.rx.mode
         case Try => s.(rx := Idle(TryEmpty))
         case First(w) => s.(rx := Registering(w), aw := A.DoRegisterCas(s.aw, RX, w))
         case Second(w) => s.(rx := Idle(Parked(w)))
  }

  function DoRegistered(s: State): State
    requires s.rx.Registering?
  {
    s.(rx := Pop(Second(s.rx.w)))
  }

  function DoBeginClose(s: State): State { s.(rx := CloseSet) }

  function DoCloseSet(s: State): State { s.(open := false, rx := CloseDrain) }

  function DoCloseDrain(s: State): State {
    if s.parked == [] then s.(rx := Idle(Closed), drained := true)
    else s.(parked := s.parked[1..], rx := CloseNotify(s.parked[0].value))
  }

  function DoCloseNotify(s: State): State
    requires s.rx.CloseNotify?
  {
    Notified(s, s.rx.h).(rx := CloseDrain)
  }

  function DoAwStep(s: State, a: A.Step): State
    requires A.Enabled(s.aw, a)
  {
    s.(aw := A.Apply(s.aw, a))
  }

  datatype SenderOp =
    | Clone | Drop | CloseChannel | MarkClosed | TrySend(m: Message) | CheckParkedStep | IncStep
    | Park1Step | Park2Step | Park3Step | Park4Step | Push1Step | Push2Step | SignalStep | SenderDone
    | PollReady(w: Waker) | PollTaskStep

  datatype ReceiverOp =
    | BeginReceive(mode: Mode) | PopStep | UnparkStep | NotifyStep | DecStep | LoadStateStep | Registered
    | BeginClose | CloseSetStep | CloseDrainStep | CloseNotifyStep

  datatype Step = Sending(t: Sid, so: SenderOp) | Receiving(ro: ReceiverOp) | AwStep(a: A.Step)

  /** The sender is alive and inside no operation. */
  predicate Free(s: State, t: Sid) {
    t in s.senders && s.senders[t].alive && s.senders[t].pc == Quiet
  }

  predicate Poppable<T(==)>(a: seq<M.Slot<T>>) { a == [] || a[0].linker == None }

  predicate CanSend(s: State, t: Sid, o: SenderOp) {
    if o.Clone? then t !in s.senders && t != RX && 1 <= s.numSenders && s.numSenders + s.buffer < P.MAX_CAPACITY
    else t in s.senders &&
         match o
         case Drop => Free(s, t) && s.numSenders >= 1
         case CloseChannel => Free(s, t)
         case MarkClosed => s.senders[t].pc.CloseMark?
         case TrySend(m) => Free(s, t) && m.from == t
         case CheckParkedStep => s.senders[t].pc.CheckParked?
         case IncStep => s.senders[t].pc.Inc? && (s.open ==> s.num < P.MAX_CAPACITY)
         case Park1Step => s.senders[t].pc.Park1?
         case Park2Step => s.senders[t].pc.Park2?
         case Park3Step => s.senders[t].pc.Park3?
         case Park4Step => s.senders[t].pc.Park4?
         case Push1Step => s.senders[t].pc.Push1?
         case Push2Step => s.senders[t].pc.Push2?
         case SignalStep => s.senders[t].pc.Signal? && t !in s.aw.pc
         case SenderDone => s.senders[t].pc.Signaled? && t !in s.aw.pc
         case PollReady(_) => Free(s, t)
         case PollTaskStep => s.senders[t].pc.PollTask?
  }

  predicate CanReceive(s: State, o: ReceiverOp) {
    match o
    case BeginReceive(mode) => s.rx.Idle? && s.rx.a != EndOfStream && !mode.Second?
    case PopStep => s.rx.Pop? && Poppable(s.msgs)
    case UnparkStep => s.rx.Unpark? && Poppable(s.parked)
    case NotifyStep => s.rx.Notify?
    case DecStep => s.rx.Dec? && s.num >= 1
    case LoadStateStep => s.rx.LoadState? && (s.rx.mode.First? ==> RX !in s.aw.pc)
    case Registered => s.rx.Registering? && RX !in s.aw.pc
    case BeginClose => s.rx.Idle? && s.rx.a != EndOfStream
    case CloseSetStep => s.rx == CloseSet
    case CloseDrainStep => s.rx == CloseDrain && Poppable(s.parked)
    case CloseNotifyStep => s.rx.CloseNotify?
  }

  predicate Enabled(s: State, e: Step) {
    match e
    case Sending(t, o) => CanSend(s, t, o)
    case Receiving(o) => CanReceive(s, o)
    case AwStep(a) => !a.RegisterCas? && !a.WakeFetchOr? && A.Enabled(s.aw, a)
  }

  function Send(s: State, t: Sid, o: SenderOp): State
    requires CanSend(s, t, o)
  {
    match o
    case Clone => DoClone(s, t)
    case Drop => DoDrop(s, t)
    case CloseChannel => DoCloseChannel(s, t)
    case MarkClosed => DoMarkClosed(s, t)
    case TrySend(m) => DoTrySend(s, t, m)
    case CheckParkedStep => DoCheckParked(s, t)
    case IncStep => DoInc(s, t)
    case Park1Step => DoPark1(s, t)
    case Park2Step => DoPark2(s, t)
    case Park3Step => DoPark3(s, t)
    case Park4Step => DoPark4(s, t)
    case Push1Step => DoPush1(s, t)
    case Push2Step => DoPush2(s, t)
    case SignalStep => DoSignal(s, t)
    case SenderDone => DoSenderDone(s, t)
    case PollReady(w) => DoPollReady(s, t, w)
    case PollTaskStep => DoPollTask(s, t)
  }

  function Receive(s: State, o: ReceiverOp): State
    requires CanReceive(s, o)
  {
    match o
    case BeginReceive(mode) => DoBeginReceive(s, mode)
    case PopStep => DoPop(s)
    case UnparkStep => DoUnpark(s)
    case NotifyStep => DoNotify(s)
    case DecStep => DoDec(s)
    case LoadStateStep => DoLoadState(s)
    case Registered => DoRegistered(s)
    case BeginClose => DoBeginClose(s)
    case CloseSetStep => DoCloseSet(s)
    case CloseDrainStep => DoCloseDrain(s)
    case CloseNotifyStep => DoCloseNotify(s)
  }

  function Apply(s: State, e: Step): State
    requires Enabled(s, e)
  {
    match e
    case Sending(t, o) => Send(s, t, o)
    case Receiving(o) => Receive(s, o)
    case AwStep(a) => DoAwStep(s, a)
  }

  ghost predicate Next(s: State, e: Step, s': State) {
    Enabled(s, e) && s' == Apply(s, e)
  }

  /** Some run of the channel leads to this state. */
  ghost predicate Reachable(s: State) { Reaches<State, Step>(IsInit, Next, s) }

  lemma StartIsReachable(buffer: nat, t: Sid)
    requires buffer < P.MAX_BUFFER && t != RX
    ensures Reachable(Init(buffer, t))
  {
    assert IsInit(Init(buffer, t));
    StartReached<State, Step>(IsInit, Next, Init(buffer, t));
  }

  lemma Onwards(s: State, e: Step, s': State)
    requires Reachable(s) && Enabled(s, e) && Apply(s, e) == s'
    ensures Reachable(s')
  {
    NextReached<State, Step>(IsInit, Next, s, e, s');
  }

  /** A sender's step changes no other sender and nothing of the receiver. */
  lemma SendTouchesOne(s: State, t: Sid, o: SenderOp)
    requires CanSend(s, t, o)
    ensures var s' := Send(s, t, o);
            && t in s'.senders && s'.senders == s.senders[t := s'.senders[t]]
            && s'.rx == s.rx && s'.popped == s.popped && s'.wakes == s.wakes && s'.drained == s.drained
            && (!o.Push1Step? ==> s'.pushed == s.pushed)
  {
    match o
    case CloseChannel => case MarkClosed => case TrySend(m) => case CheckParkedStep => case Push2Step =>
    case SignalStep => case SenderDone => case PollReady(w) => case PollTaskStep => case Drop => case Clone =>
    case Park1Step => case Park2Step => case Park3Step => case Park4Step => case IncStep => case Push1Step =>
  }

  // ----- the two queues -----

  /** What a step does to the message queue, in the terms of MessageQueues ... */
  function MessageStep(s: State, e: Step): M.SlotStep<Message>
    requires Enabled(s, e)
  {
    match e
    case Sending(t, Push1Step) => M.Append(t, s.senders[t].pc.m)
    case Sending(t, Push2Step) => M.WriteLink(t)
    case Receiving(PopStep) => if s.msgs == [] then M.Stutter else M.TakeOldest
    case _ => M.Stutter
  }

  /** ... and to the queue of parked senders. */
  function ParkedStep(s: State, e: Step): M.SlotStep<Sid>
    requires Enabled(s, e)
  {
    match e
    case Sending(t, Park2Step) => M.Append(t, t)
    case Sending(t, Park3Step) => M.WriteLink(t)
    case Receiving(UnparkStep) => if s.parked == [] then M.Stutter else M.TakeOldest
    case Receiving(CloseDrainStep) => if s.parked == [] then M.Stutter else M.TakeOldest
    case _ => M.Stutter
  }

  /** Both queues of the channel take only the steps of the plain sequences whose runs the runs
      of `mpsc/queue.rs` are: `SimulatesRun`. */
  lemma QueuesAreSlotQueues(s: State, e: Step)
    requires Enabled(s, e)
    ensures M.SlotNext(s.msgs, MessageStep(s, e), Apply(s, e).msgs)
    ensures M.SlotNext(s.parked, ParkedStep(s, e), Apply(s, e).parked)
  {
    match e
    case Sending(t, o) => SendMovesQueues(s, t, o);
    case Receiving(o) => ReceiveMovesQueues(s, o);
    case AwStep(a) =>
  }

  lemma SendMovesQueues(s: State, t: Sid, o: SenderOp)
    requires CanSend(s, t, o)
    ensures M.SlotNext(s.msgs, MessageStep(s, Sending(t, o)), Send(s, t, o).msgs)
    ensures M.SlotNext(s.parked, ParkedStep(s, Sending(t, o)), Send(s, t, o).parked)
  {
    match o
    case CloseChannel => case MarkClosed => case TrySend(m) => case CheckParkedStep => case Push2Step =>
    case SignalStep => case SenderDone => case PollReady(w) => case PollTaskStep => case Drop => case Clone =>
    case Park1Step => case Park2Step => case Park3Step => case Park4Step => case IncStep => case Push1Step =>
  }

  lemma ReceiveMovesQueues(s: State, o: ReceiverOp)
    requires CanReceive(s, o)
    ensures M.SlotNext(s.msgs, MessageStep(s, Receiving(o)), Receive(s, o).msgs)
    ensures M.SlotNext(s.parked, ParkedStep(s, Receiving(o)), Receive(s, o).parked)
  {
    match o
    case NotifyStep => case CloseNotifyStep => case UnparkStep => case CloseDrainStep => case BeginReceive(_) =>
    case PopStep => case DecStep => case LoadStateStep => case Registered => case BeginClose => case CloseSetStep =>
  }

  // ----- counting -----

  /** Counted in num, and the message not yet in the queue. */
  predicate Counted(pc: SenderPc) { pc.Park1? || pc.Park2? || pc.Park3? || pc.Park4? || pc.Push1? }

  /** Past the increment, and about to put its handle into the parked queue. */
  predicate AboutToPark(pc: SenderPc) { pc.Park1? || pc.Park2? }

  function InFlight(m: map<Sid, Sender>): set<Sid> { set t | t in m && Counted(m[t].pc) }

  function Parking(m: map<Sid, Sender>): set<Sid> { set t | t in m && AboutToPark(m[t].pc) }

  function Live(m: map<Sid, Sender>): set<Sid> { set t | t in m && m[t].alive }

  function One(b: bool): nat { if b then 1 else 0 }

  /** The receiver has popped a message and not yet counted it down. */
  predicate Uncounted(rx: ReceiverPc) { rx.Unpark? || rx.Notify? || rx.Dec? }

  /** The receiver has popped a handle, and not yet counted down the message that goes with it
      or, in `close`, not yet notified it. */
  predicate Unparked(rx: ReceiverPc) { rx.Notify? || rx.Dec? || rx.CloseNotify? }

  /** The part of a log that came from t. */
  function From(log: seq<Message>, t: Sid): seq<Message> {
    if log == [] then []
    else From(log[..|log| - 1], t) + (if log[|log| - 1].from == t then [log[|log| - 1]] else [])
  }

  /** The message a sender has counted and not yet pushed. */
  function Holding(pc: SenderPc): seq<Message> { if Counted(pc) then [pc.m] else [] }

  /** Accepted messages that have not been popped. */
  function Unpopped(s: State): nat { |s.msgs| + |InFlight(s.senders)| }

  lemma CountOne(a: set<Sid>, a': set<Sid>, t: Sid)
    requires a - {t} == a' - {t}
    ensures |a'| + One(t in a) == |a| + One(t in a')
  {
    assert a == if t in a then (a - {t}) + {t} else a - {t};
    assert a' == if t in a' then (a - {t}) + {t} else a - {t};
  }

  lemma CountPut(m: map<Sid, Sender>, t: Sid, x: Sender)
    ensures |InFlight(m[t := x])| + One(t in m && Counted(m[t].pc)) == |InFlight(m)| + One(Counted(x.pc))
    ensures |Parking(m[t := x])| + One(t in m && AboutToPark(m[t].pc)) == |Parking(m)| + One(AboutToPark(x.pc))
    ensures |Live(m[t := x])| + One(t in m && m[t].alive) == |Live(m)| + One(x.alive)
  {
    CountOne(InFlight(m), InFlight(m[t := x]), t);
    CountOne(Parking(m), Parking(m[t := x]), t);
    CountOne(Live(m), Live(m[t := x]), t);
  }

  lemma ParkingIsInFlight(m: map<Sid, Sender>)
    ensures |Parking(m)| <= |InFlight(m)|
  {
    assert Parking(m) <= InFlight(m);
    Included(Parking(m), InFlight(m));
  }

  lemma Included<T>(a: set<T>, b: set<T>)
    requires a <= b
    ensures |a| <= |b|
  {
    assert b == a + (b - a);
  }

  /** `num_messages` is what is queued, in flight, and popped but not yet counted down. */
  ghost predicate NumOk(s: State) {
    s.num == Unpopped(s) + One(Uncounted(s.rx))
  }

  /** Parked handles, and senders about to park, never outnumber the messages. */
  ghost predicate ParkOk(s: State) {
    |s.parked| + |Parking(s.senders)| + One(Unparked(s.rx)) <= s.num
  }

  /** On an open channel the messages past the buffer are matched by parked senders. */
  ghost predicate CapacityOk(s: State) {
    s.open ==> Unpopped(s) + One(s.rx.Unpark?) <= s.buffer + |s.parked| + |Parking(s.senders)|
  }

  ghost predicate Counts(s: State) {
    && NumOk(s) && ParkOk(s) && CapacityOk(s)
    && s.numSenders == |Live(s.senders)|
    && (s.rx == CloseDrain || s.rx.CloseNotify? || s.drained ==> !s.open)
  }

  /** The messages in the queue are those pushed and not yet popped. */
  predicate OrderOk(s: State) { s.pushed == s.popped + Contents(s.msgs) }

  function Contents<T>(a: seq<M.Slot<T>>): (r: seq<T>)
    ensures |r| == |a| && forall i :: 0 <= i < |a| ==> r[i] == a[i].value
  {
    seq(|a|, i requires 0 <= i < |a| => a[i].value)
  }

  lemma ContentsAppend<T>(a: seq<M.Slot<T>>, x: M.Slot<T>)
    ensures Contents(a + [x]) == Contents(a) + [x.value]
  {
  }

  lemma ContentsFirst<T>(a: seq<M.Slot<T>>)
    requires a != []
    ensures Contents(a) == [a[0].value] + Contents(a[1..])
  {
  }

  lemma PushKeepsOrder(s: State, t: Sid)
    requires CanSend(s, t, Push1Step) && OrderOk(s)
    ensures OrderOk(DoPush1(s, t))
  {
    var x := M.Slot(s.senders[t].pc.m, Some(t));
    ContentsAppend(s.msgs, x);
    Regroup(s.popped, Contents(s.msgs), [x.value]);
  }

  lemma PopKeepsOrder(s: State)
    requires CanReceive(s, PopStep) && OrderOk(s)
    ensures OrderOk(DoPop(s))
  {
    if s.msgs != [] {
      ContentsFirst(s.msgs);
      Regroup(s.popped, [s.msgs[0].value], Contents(s.msgs[1..]));
    }
  }

  lemma SendKeepsOrder(s: State, t: Sid, o: SenderOp)
    requires CanSend(s, t, o) && OrderOk(s)
    ensures OrderOk(Send(s, t, o))
  {
    if o.Push1Step? { PushKeepsOrder(s, t); }
    else if o.Push2Step? { assert Contents(M.Linked(s.msgs, t)) == Contents(s.msgs); }
    else { assert Send(s, t, o).msgs == s.msgs; }
  }

  lemma KeepsOrder(s: State, e: Step)
    requires Enabled(s, e) && OrderOk(s)
    ensures OrderOk(Apply(s, e))
  {
    match e
    case Sending(t, o) => SendKeepsOrder(s, t, o);
    case Receiving(o) => if o.PopStep? { PopKeepsOrder(s); } else { assert Receive(s, o).msgs == s.msgs; }
    case AwStep(a) =>
  }

  predicate Carries(pc: SenderPc) { Counted(pc) || pc.CheckParked? || pc.Inc? }

  /** What t pushed, and what it has counted and not yet pushed, is what it had accepted. */
  ghost predicate SentOk(x: Sender, t: Sid, pushed: seq<Message>) {
    && From(pushed, t) + Holding(x.pc) == x.accepted
    && (Carries(x.pc) ==> x.pc.m.from == t)
  }

  ghost predicate HistoryOk(s: State) {
    && (forall t :: t in s.senders ==> SentOk(s.senders[t], t, s.pushed))
    && (forall i :: 0 <= i < |s.pushed| ==> s.pushed[i].from in s.senders)
  }

  lemma FromAppend(log: seq<Message>, m: Message, t: Sid)
    ensures From(log + [m], t) == From(log, t) + if m.from == t then [m] else []
  {
    assert (log + [m])[..|log|] == log;
  }

  lemma {:induction false} FromNobody(log: seq<Message>, t: Sid)
    requires forall i :: 0 <= i < |log| ==> log[i].from != t
    ensures From(log, t) == []
  {
    if log != [] {
      FromNobody(log[..|log| - 1], t);
    }
  }

  lemma SentByPusher(x: Sender, t: Sid, pushed: seq<Message>)
    requires SentOk(x, t, pushed) && x.pc.Push1?
    ensures SentOk(x.(pc := Push2), t, pushed + [x.pc.m])
  {
    FromAppend(pushed, x.pc.m, t);
    assert From(pushed, t) + [x.pc.m] + [] == From(pushed, t) + [x.pc.m];
  }

  lemma SentByOther(x: Sender, u: Sid, pushed: seq<Message>, m: Message)
    requires SentOk(x, u, pushed) && m.from != u
    ensures SentOk(x, u, pushed + [m])
  {
    FromAppend(pushed, m, u);
  }

  lemma PushKeepsHistory(s: State, t: Sid)
    requires CanSend(s, t, Push1Step) && HistoryOk(s)
    ensures HistoryOk(DoPush1(s, t))
  {
    var m := s.senders[t].pc.m;
    assert SentOk(s.senders[t], t, s.pushed);
    SentByPusher(s.senders[t], t, s.pushed);
    forall u | u in s.senders && u != t ensures SentOk(s.senders[u], u, s.pushed + [m]) {
      SentByOther(s.senders[u], u, s.pushed, m);
    }
  }

  lemma SendKeepsHistory(s: State, t: Sid, o: SenderOp)
    requires CanSend(s, t, o) && HistoryOk(s) && !o.Push1Step?
    ensures HistoryOk(Send(s, t, o))
  {
    var s' := Send(s, t, o);
    SendTouchesOne(s, t, o);
    if o.Clone? {
      FromNobody(s.pushed, t);
    } else {
      assert SentOk(s.senders[t], t, s.pushed);
      SentStays(s, t, o);
    }
  }

  lemma SentStays(s: State, t: Sid, o: SenderOp)
    requires CanSend(s, t, o) && !o.Push1Step? && !o.Clone? && SentOk(s.senders[t], t, s.pushed)
    ensures SentOk(Send(s, t, o).senders[t], t, s.pushed)
  {
    match o
    case CloseChannel => case MarkClosed => case TrySend(m) => case CheckParkedStep => case Push2Step =>
    case SignalStep => case SenderDone => case PollReady(w) => case PollTaskStep => case Drop =>
    case Park1Step => case Park2Step => case Park3Step => case Park4Step =>
    case IncStep => assert From(s.pushed, t) + [] == From(s.pushed, t);
  }

  lemma ReceiveLeavesSent(s: State, o: ReceiverOp)
    requires CanReceive(s, o)
    ensures var s' := Receive(s, o);
            && s'.pushed == s.pushed && s'.senders.Keys == s.senders.Keys
            && forall t :: t in s.senders ==> s'.senders[t].pc == s.senders[t].pc && s'.senders[t].accepted == s.senders[t].accepted
  {
    match o
    case NotifyStep => case CloseNotifyStep => case UnparkStep => case CloseDrainStep => case BeginReceive(_) =>
    case PopStep => case DecStep => case LoadStateStep => case Registered => case BeginClose => case CloseSetStep =>
  }

  lemma ReceiveKeepsHistory(s: State, o: ReceiverOp)
    requires CanReceive(s, o) && HistoryOk(s)
    ensures HistoryOk(Receive(s, o))
  {
    var s' := Receive(s, o);
    ReceiveLeavesSent(s, o);
    forall t | t in s'.senders ensures SentOk(s'.senders[t], t, s'.pushed) {
      assert SentOk(s.senders[t], t, s.pushed);
    }
  }

  lemma KeepsHistory(s: State, e: Step)
    requires Enabled(s, e) && HistoryOk(s)
    ensures HistoryOk(Apply(s, e))
  {
    match e
    case Sending(t, o) => if o.Push1Step? { PushKeepsHistory(s, t); } else { SendKeepsHistory(s, t, o); }
    case Receiving(o) => ReceiveKeepsHistory(s, o);
    case AwStep(a) =>
  }

  predicate ByParker(o: SenderOp) { o.Park1Step? || o.Park2Step? || o.Park3Step? || o.Park4Step? || o.Push1Step? }

  lemma CloneCounts(s: State, t: Sid)
    requires Counts(s) && CanSend(s, t, Clone)
    ensures Counts(DoClone(s, t))
  {
    CountPut(s.senders, t, FRESH);
  }

  lemma DropCounts(s: State, t: Sid)
    requires Counts(s) && CanSend(s, t, Drop)
    ensures Counts(DoDrop(s, t))
  {
    CountPut(s.senders, t, DoDrop(s, t).senders[t]);
  }

  lemma IncCounts(s: State, t: Sid)
    requires Counts(s) && CanSend(s, t, IncStep)
    ensures Counts(DoInc(s, t))
  {
    CountPut(s.senders, t, DoInc(s, t).senders[t]);
  }

  lemma ParkerCounts(s: State, t: Sid, o: SenderOp)
    requires CanSend(s, t, o) && Counts(s) && ByParker(o)
    ensures Counts(Send(s, t, o))
  {
    CountPut(s.senders, t, Send(s, t, o).senders[t]);
    assert Send(s, t, o).senders == s.senders[t := Send(s, t, o).senders[t]];
  }

  /** A step of t that changes no count. */
  lemma PutCounts(s: State, s': State, t: Sid)
    requires Counts(s) && t in s.senders && t in s'.senders && s'.senders == s.senders[t := s'.senders[t]]
    requires !Counted(s.senders[t].pc) && !Counted(s'.senders[t].pc) && s'.senders[t].alive == s.senders[t].alive
    requires |s'.msgs| == |s.msgs| && s'.parked == s.parked && s'.rx == s.rx && s'.num == s.num && s'.buffer == s.buffer
    requires s'.numSenders == s.numSenders && s'.drained == s.drained && (s'.open ==> s.open)
    ensures Counts(s')
  {
    CountPut(s.senders, t, s'.senders[t]);
  }

  predicate Quietly(o: SenderOp) { !o.Clone? && !o.Drop? && !o.IncStep? && !ByParker(o) }

  lemma QuietSend(s: State, t: Sid, o: SenderOp)
    requires CanSend(s, t, o) && Quietly(o)
    ensures var s' := Send(s, t, o);
            && t in s'.senders && s'.senders == s.senders[t := s'.senders[t]]
            && !Counted(s.senders[t].pc) && !Counted(s'.senders[t].pc) && s'.senders[t].alive == s.senders[t].alive
            && |s'.msgs| == |s.msgs| && s'.parked == s.parked && s'.rx == s.rx && s'.num == s.num && s'.buffer == s.buffer
            && s'.numSenders == s.numSenders && s'.drained == s.drained && (s'.open ==> s.open)
  {
    match o
    case CloseChannel => case MarkClosed => case TrySend(m) => case CheckParkedStep => case Push2Step =>
    case SignalStep => case SenderDone => case PollReady(w) => case PollTaskStep =>
  }

  lemma SendCounts(s: State, t: Sid, o: SenderOp)
    requires CanSend(s, t, o) && Counts(s)
    ensures Counts(Send(s, t, o))
  {
    if o.Clone? { CloneCounts(s, t); }
    else if o.Drop? { DropCounts(s, t); }
    else if o.IncStep? { IncCounts(s, t); }
    else if ByParker(o) { ParkerCounts(s, t, o); }
    else { QuietSend(s, t, o); PutCounts(s, Send(s, t, o), t); }
  }

  lemma NotifiedCounts(s: State, h: Sid)
    ensures var m := Notified(s, h).senders;
            |InFlight(m)| == |InFlight(s.senders)| && |Parking(m)| == |Parking(s.senders)| && |Live(m)| == |Live(s.senders)|
  {
    if h in s.senders {
      CountPut(s.senders, h, Notified(s, h).senders[h]);
    }
  }

  lemma NotifyCounts(s: State, o: ReceiverOp)
    requires CanReceive(s, o) && Counts(s) && (o.NotifyStep? || o.CloseNotifyStep?)
    ensures Counts(Receive(s, o))
  {
    NotifiedCounts(s, s.rx.h);
  }

  lemma PopCounts(s: State)
    requires CanReceive(s, PopStep) && Counts(s)
    ensures Counts(DoPop(s))
  {
  }

  lemma UnparkCounts(s: State)
    requires CanReceive(s, UnparkStep) && Counts(s)
    ensures Counts(DoUnpark(s))
  {
    ParkingIsInFlight(s.senders);
  }

  lemma CloseDrainCounts(s: State)
    requires CanReceive(s, CloseDrainStep) && Counts(s)
    ensures Counts(DoCloseDrain(s))
  {
  }

  /** A step that touches neither a queue nor a sender. */
  lemma RxCounts(s: State, s': State)
    requires Counts(s)
    requires s' == s.(rx := s'.rx, aw := s'.aw, open := s'.open, num := s'.num)
    requires s'.rx == s.rx || (!Uncounted(s'.rx) && !Unparked(s'.rx) && !s.rx.Unpark?)
    requires s'.num + One(Uncounted(s.rx)) == s.num + One(Uncounted(s'.rx))
    requires s'.open ==> s.open
    requires s'.rx == CloseDrain || s'.rx.CloseNotify? || s'.drained ==> !s'.open
    ensures Counts(s')
  {
    ParkingIsInFlight(s.senders);
  }

  lemma ReceiveCounts(s: State, o: ReceiverOp)
    requires CanReceive(s, o) && Counts(s)
    ensures Counts(Receive(s, o))
  {
    if o.PopStep? { PopCounts(s); }
    else if o.UnparkStep? { UnparkCounts(s); }
    else if o.NotifyStep? || o.CloseNotifyStep? { NotifyCounts(s, o); }
    else if o.CloseDrainStep? { CloseDrainCounts(s); }
    else { RxCounts(s, Receive(s, o)); }
  }

  lemma KeepsCounts(s: State, e: Step)
    requires Enabled(s, e) && Counts(s)
    ensures Counts(Apply(s, e))
  {
    match e
    case Sending(t, o) => SendCounts(s, t, o);
    case Receiving(o) => ReceiveCounts(s, o);
    case AwStep(a) => RxCounts(s, DoAwStep(s, a));
  }
}
