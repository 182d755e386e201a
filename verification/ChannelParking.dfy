/** Parking and unparking of senders (futures-channel/src/mpsc/mod.rs): what every step of the
    bounded channel keeps about a sender's task, its one handle and the receiver. */
module ChannelParking {
  import opened Runs
  import opened Chains
  import opened Channels
  import M = MessageQueues

  /** The handle the receiver has popped and not yet notified. */
  function HandleOf(rx: ReceiverPc): Option<Sid> {
    match rx
    case Notify(_, _, h) => Some(h)
    case CloseNotify(h) => Some(h)
    case _ => None
  }

  predicate PastPark(pc: SenderPc) { pc.Park2? || pc.Park3? || pc.Park4? }

  /** One sender against the parked queue (is its handle in it?), the receiver (is its handle
      in the receiver's hands?) and the state of the channel. */
  predicate SenderOk(x: Sender, queued: bool, inHand: bool, open: bool, drained: bool) {
    && (x.isParked <==> queued || inHand || x.pc.Park2?)
    && !(queued && inHand) && (x.pc.Park2? ==> !queued && !inHand)
    && (x.pc.Park1? ==> !x.isParked)
    && (open && !x.maybeParked && !PastPark(x.pc) ==> !x.isParked)
    && (x.pc.Inc? || x.pc.Park1? || PastPark(x.pc) ==> !x.maybeParked)
    && (x.pc.CheckParked? || x.pc.PollTask? ==> x.maybeParked)
    && (x.waiting.Some? ==> x.isParked && x.maybeParked) && x.task == x.waiting
    && (drained && x.maybeParked ==> !x.isParked)
    && (x.said == Disconnected ==> !open) && (x.said == HasCapacity ==> !x.isParked)
    && (Carries(x.pc) ==> x.said == Unasked)
    && (!x.alive ==> x.pc.Quiet? || x.pc.CloseMark? || x.pc.Signal? || x.pc.Signaled?)
  }

  ghost predicate SendersOk(senders: map<Sid, Sender>, handles: seq<Sid>, hand: Option<Sid>, open: bool, drained: bool) {
    forall t :: t in senders ==> SenderOk(senders[t], t in handles, hand == Some(t), open, drained)
  }

  predicate LinkerOk(h: M.Slot<Sid>, senders: map<Sid, Sender>) {
    && h.value in senders
    && (h.linker.Some? ==> h.linker.value == h.value && senders[h.value].pc.Park3?)
  }

  ghost predicate HandlesOk(parked: seq<M.Slot<Sid>>, senders: map<Sid, Sender>, hand: Option<Sid>) {
    && NoDuplicates(Contents(parked))
    && (forall i :: 0 <= i < |parked| ==> LinkerOk(parked[i], senders))
    && (hand.Some? ==> hand.value in senders)
  }

  /** A message whose link is due has a sender that is about to write it. */
  ghost predicate LinksOk(msgs: seq<M.Slot<Message>>, senders: map<Sid, Sender>) {
    forall i :: 0 <= i < |msgs| && msgs[i].linker.Some? ==> msgs[i].linker.value in senders && senders[msgs[i].linker.value].pc.Push2?
  }

  ghost predicate ParkingOk(s: State) {
    && SendersOk(s.senders, Contents(s.parked), HandleOf(s.rx), s.open, s.drained)
    && HandlesOk(s.parked, s.senders, HandleOf(s.rx))
    && LinksOk(s.msgs, s.senders)
    && (s.drained ==> !s.open)
  }

  // ----- one sender's step -----

  lemma SenderParks(s: State, t: Sid, o: SenderOp, queued: bool, inHand: bool)
    requires CanSend(s, t, o) && (o.IncStep? || o.Park1Step? || o.Park3Step? || o.Park4Step? || o.Push1Step?)
    requires SenderOk(s.senders[t], queued, inHand, s.open, s.drained) && (s.drained ==> !s.open)
    ensures SenderOk(Send(s, t, o).senders[t], queued, inHand, s.open, s.drained)
  {
    match o
    case Park1Step => case Park3Step => case Park4Step => case IncStep => case Push1Step =>
  }

  lemma SenderStays(s: State, t: Sid, o: SenderOp, queued: bool, inHand: bool)
    requires CanSend(s, t, o) && !o.Clone? && !ByParker(o) && !o.IncStep?
    requires SenderOk(s.senders[t], queued, inHand, s.open, s.drained)
    ensures SenderOk(Send(s, t, o).senders[t], queued, inHand, Send(s, t, o).open, s.drained)
  {
    if o.TrySend? || o.CheckParkedStep? || o.PollReady? || o.PollTaskStep? {
      SenderAsks(s, t, o, queued, inHand);
    } else {
      match o
      case CloseChannel => case MarkClosed => case Push2Step => case SignalStep => case SenderDone => case Drop =>
    }
  }

  lemma SenderAsks(s: State, t: Sid, o: SenderOp, queued: bool, inHand: bool)
    requires CanSend(s, t, o) && (o.TrySend? || o.CheckParkedStep? || o.PollReady? || o.PollTaskStep?)
    requires SenderOk(s.senders[t], queued, inHand, s.open, s.drained)
    ensures SenderOk(Send(s, t, o).senders[t], queued, inHand, Send(s, t, o).open, s.drained)
  {
    match o
    case TrySend(m) => case CheckParkedStep => case PollReady(w) => case PollTaskStep =>
  }

  lemma SendKeepsSenders(s: State, t: Sid, o: SenderOp)
    requires CanSend(s, t, o) && ParkingOk(s) && !o.Park2Step?
    ensures SendersOk(Send(s, t, o).senders, Contents(s.parked), HandleOf(s.rx), Send(s, t, o).open, s.drained)
  {
    var s' := Send(s, t, o);
    SendTouchesOne(s, t, o);
    if o.Clone? {
      NotQueued(s, t);
    } else if o.IncStep? || ByParker(o) {
      SenderParks(s, t, o, t in Contents(s.parked), HandleOf(s.rx) == Some(t));
    } else {
      SenderStays(s, t, o, t in Contents(s.parked), HandleOf(s.rx) == Some(t));
    }
  }

  lemma NotQueued(s: State, t: Sid)
    requires ParkingOk(s) && t !in s.senders
    ensures t !in Contents(s.parked) && HandleOf(s.rx) != Some(t)
  {
    forall i | 0 <= i < |s.parked| ensures Contents(s.parked)[i] in s.senders { assert LinkerOk(s.parked[i], s.senders); }
  }

  lemma ParkPushKeeps(s: State, t: Sid)
    requires CanSend(s, t, Park2Step) && ParkingOk(s)
    ensures ParkingOk(DoPark2(s, t))
  {
    var s' := DoPark2(s, t);
    var h := M.Slot(t, Some(t));
    assert Contents(s.parked + [h]) == Contents(s.parked) + [t];
    assert SenderOk(s.senders[t], t in Contents(s.parked), HandleOf(s.rx) == Some(t), s.open, s.drained);
    forall i | 0 <= i < |s'.parked| ensures LinkerOk(s'.parked[i], s'.senders) {
      if i < |s.parked| {
        assert LinkerOk(s.parked[i], s.senders);
        assert Contents(s.parked)[i] == s.parked[i].value;
      }
    }
  }

  /** Of the other steps only `Park3Step` touches a handle. */
  lemma SendKeepsHandles(s: State, t: Sid, o: SenderOp)
    requires CanSend(s, t, o) && ParkingOk(s) && !o.Park2Step?
    ensures HandlesOk(Send(s, t, o).parked, Send(s, t, o).senders, HandleOf(s.rx))
    ensures Contents(Send(s, t, o).parked) == Contents(s.parked)
  {
    var s' := Send(s, t, o);
    SendTouchesOne(s, t, o);
    forall i | 0 <= i < |s.parked| ensures i < |s'.parked| && LinkerOk(s'.parked[i], s'.senders) {
      assert LinkerOk(s.parked[i], s.senders);
    }
    assert Contents(s'.parked) == Contents(s.parked);
  }

  lemma SendKeepsLinks(s: State, t: Sid, o: SenderOp)
    requires CanSend(s, t, o) && LinksOk(s.msgs, s.senders)
    ensures LinksOk(Send(s, t, o).msgs, Send(s, t, o).senders)
  {
    SendTouchesOne(s, t, o);
  }

  // ----- the receiver's steps -----

  lemma NotifiedIsFine(s: State, h: Sid)
    requires ParkingOk(s) && HandleOf(s.rx) == Some(h)
    ensures SendersOk(Notified(s, h).senders, Contents(s.parked), None, s.open, s.drained)
    ensures HandlesOk(s.parked, Notified(s, h).senders, None)
    ensures LinksOk(s.msgs, Notified(s, h).senders)
  {
    forall i | 0 <= i < |s.parked| ensures LinkerOk(s.parked[i], Notified(s, h).senders) {
      assert LinkerOk(s.parked[i], s.senders);
    }
  }

  lemma NotifyKeeps(s: State, o: ReceiverOp)
    requires CanReceive(s, o) && ParkingOk(s) && (o.NotifyStep? || o.CloseNotifyStep?)
    ensures ParkingOk(Receive(s, o))
  {
    NotifiedIsFine(s, s.rx.h);
  }

  /** Taking the oldest handle out of the queue into the receiver's hands. */
  lemma TakeHandleKeeps(s: State, s': State)
    requires ParkingOk(s) && s.parked != [] && HandleOf(s.rx) == None
    requires s' == s.(parked := s.parked[1..], rx := s'.rx) && HandleOf(s'.rx) == Some(s.parked[0].value)
    ensures ParkingOk(s')
  {
    assert Contents(s'.parked) == Contents(s.parked)[1..];
    assert LinkerOk(s.parked[0], s.senders) && Contents(s.parked)[0] == s.parked[0].value;
    assert forall t :: t in Contents(s.parked) ==> t == s.parked[0].value || t in Contents(s.parked)[1..];
    assert forall i :: 0 <= i < |s'.parked| ==> s'.parked[i] == s.parked[i + 1];
  }

  /** Any other step of the receiver. */
  lemma RxMovesKeeps(s: State, s': State)
    requires ParkingOk(s) && HandleOf(s.rx) == None && HandleOf(s'.rx) == None
    requires s'.senders == s.senders && s'.parked == s.parked && (s'.open ==> s.open)
    requires s'.msgs == s.msgs || (s.msgs != [] && s'.msgs == s.msgs[1..])
    requires s'.drained == s.drained || (s.parked == [] && !s'.open)
    ensures ParkingOk(s')
  {
    forall t | t in s.senders ensures SenderOk(s.senders[t], t in Contents(s.parked), false, s'.open, s'.drained) {
      assert SenderOk(s.senders[t], t in Contents(s.parked), HandleOf(s.rx) == Some(t), s.open, s.drained);
    }
  }

  lemma ReceiveKeepsParking(s: State, o: ReceiverOp)
    requires CanReceive(s, o) && ParkingOk(s) && Counts(s)
    ensures ParkingOk(Receive(s, o))
  {
    match o
    case NotifyStep => NotifyKeeps(s, o);
    case CloseNotifyStep => NotifyKeeps(s, o);
    case UnparkStep => if s.parked != [] { TakeHandleKeeps(s, DoUnpark(s)); } else { RxMovesKeeps(s, DoUnpark(s)); }
    case CloseDrainStep => if s.parked != [] { TakeHandleKeeps(s, DoCloseDrain(s)); } else { RxMovesKeeps(s, DoCloseDrain(s)); }
    case BeginReceive(mode) => RxMovesKeeps(s, DoBeginReceive(s, mode));
    case PopStep => RxMovesKeeps(s, DoPop(s));
    case DecStep => RxMovesKeeps(s, DoDec(s));
    case LoadStateStep => RxMovesKeeps(s, DoLoadState(s));
    case Registered => RxMovesKeeps(s, DoRegistered(s));
    case BeginClose => RxMovesKeeps(s, DoBeginClose(s));
    case CloseSetStep => RxMovesKeeps(s, DoCloseSet(s));
  }

  lemma KeepsParking(s: State, e: Step)
    requires Enabled(s, e) && ParkingOk(s) && Counts(s)
    ensures ParkingOk(Apply(s, e))
  {
    match e
    case Sending(t, o) =>
      if o.Park2Step? {
        ParkPushKeeps(s, t);
      } else {
        SendKeepsSenders(s, t, o);
        SendKeepsHandles(s, t, o);
        SendKeepsLinks(s, t, o);
        SendTouchesOne(s, t, o);
        assert Send(s, t, o).open ==> s.open;
      }
    case Receiving(o) => ReceiveKeepsParking(s, o);
    case AwStep(a) =>
  }
}
