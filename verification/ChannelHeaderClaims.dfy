/** Two claims of the header comment of futures-channel/src/mpsc/mod.rs: that a sender is
    unparked when the message that caused it to park is read (60-61), and that the capacity is
    the buffer plus the number of senders (46-47).  When they hold, and runs in which they do not. */
module ChannelHeaderClaims {
  import opened Runs
  import opened Chains
  import opened Channels
  import opened ChannelParking
  import opened ChannelGuarantees
  import M = MessageQueues
  import A = AtomicWakers
  import P = PackedStates

  /** t's handle is in the parked queue with p handles before it. */
  predicate At(s: State, t: Sid, p: nat) { p < |s.parked| && s.parked[p].value == t }

  /** How many times the receiver has yet to look for a handle until it has done so for message
      number q. */
  function Remaining(s: State, q: nat): int { q + 1 - |s.popped| + One(s.rx.Unpark?) }

  /** t's handle will be taken out by the time message q is read ... */
  ghost predicate Early(s: State, t: Sid, q: nat) { exists p: nat :: At(s, t, p) && p < Remaining(s, q) }

  /** ... or it will not. */
  ghost predicate Late(s: State, t: Sid, q: nat) { exists p: nat :: At(s, t, p) && p >= Remaining(s, q) }

  predicate Queued(s: State, t: Sid) { t in Contents(s.parked) }

  lemma AtMeansQueued(s: State, t: Sid, p: nat)
    requires At(s, t, p)
    ensures Queued(s, t)
  {
    assert Contents(s.parked)[p] == t;
  }

  lemma SendKeepsPlace(s: State, t: Sid, p: nat, u: Sid, o: SenderOp)
    requires CanSend(s, u, o) && At(s, t, p)
    ensures At(Send(s, u, o), t, p) && Send(s, u, o).popped == s.popped && Send(s, u, o).rx == s.rx
  {
    SendTouchesOne(s, u, o);
    if !o.Park2Step? && !o.Park3Step? { assert Send(s, u, o).parked == s.parked; }
  }

  lemma ReceiveMovesPlace(s: State, t: Sid, p: nat, q: nat, o: ReceiverOp)
    requires CanReceive(s, o) && At(s, t, p) && !o.CloseDrainStep?
    ensures var s' := Receive(s, o);
            && Remaining(s', q) == Remaining(s, q) - One(o.UnparkStep?)
            && (if o.UnparkStep? then p > 0 ==> At(s', t, p - 1) else At(s', t, p))
            && s'.parked == if o.UnparkStep? then s.parked[1..] else s.parked
  {
    match o
    case NotifyStep => case CloseNotifyStep => case UnparkStep => case BeginReceive(_) =>
    case PopStep => case DecStep => case LoadStateStep => case Registered => case BeginClose => case CloseSetStep =>
  }

  predicate Drains(e: Step) { e.Receiving? && e.ro.CloseDrainStep? }

  lemma EarlyStaysEarly(s: State, e: Step, t: Sid, q: nat)
    requires Enabled(s, e) && !Drains(e) && ParkingOk(s) && Early(s, t, q)
    ensures Early(Apply(s, e), t, q) || !Queued(Apply(s, e), t)
  {
    var p: nat :| At(s, t, p) && p < Remaining(s, q);
    match e
    case Sending(u, o) => SendKeepsPlace(s, t, p, u, o);
    case Receiving(o) =>
      ReceiveMovesPlace(s, t, p, q, o);
      if o.UnparkStep? {
        if p > 0 {
          assert At(Receive(s, o), t, p - 1);
        } else {
          assert Contents(s.parked)[0] == t;
          assert Contents(s.parked[1..]) == Contents(s.parked)[1..];
        }
      }
    case AwStep(a) => assert At(DoAwStep(s, a), t, p);
  }

  lemma LateStaysLate(s: State, e: Step, t: Sid, q: nat)
    requires Enabled(s, e) && !Drains(e) && Late(s, t, q) && Remaining(Apply(s, e), q) >= 0
    ensures Late(Apply(s, e), t, q)
  {
    var p: nat :| At(s, t, p) && p >= Remaining(s, q);
    match e
    case Sending(u, o) => SendKeepsPlace(s, t, p, u, o);
    case Receiving(o) =>
      ReceiveMovesPlace(s, t, p, q, o);
      if o.UnparkStep? { assert At(Receive(s, o), t, p - 1); }
    case AwStep(a) => assert At(DoAwStep(s, a), t, p);
  }

  lemma RemainingFalls(s: State, e: Step, q: nat)
    requires Enabled(s, e)
    ensures Remaining(Apply(s, e), q) <= Remaining(s, q)
  {
    match e
    case Sending(u, o) => PopsNothing(s, u, o);
    case Receiving(o) =>
    case AwStep(a) =>
  }

  lemma PopsNothing(s: State, u: Sid, o: SenderOp)
    requires CanSend(s, u, o)
    ensures Send(s, u, o).popped == s.popped && Send(s, u, o).rx == s.rx
  {
    SendTouchesOne(s, u, o);
  }

  /** A stretch of a run without `Receiver::close`. */
  ghost predicate Stretch(r: Run<State, Step>, i: nat, j: nat) {
    IsRun(IsInit, Next, r) && i <= j < |r.states| && forall k :: i <= k < j ==> !Drains(r.steps[k])
  }

  lemma {:induction false} RemainingOver(r: Run<State, Step>, i: nat, j: nat, q: nat)
    requires Stretch(r, i, j)
    ensures Remaining(r.states[j], q) <= Remaining(r.states[i], q)
    decreases j
  {
    if i < j {
      RemainingOver(r, i, j - 1, q);
      StepOf(r, j - 1);
      RemainingFalls(r.states[j - 1], r.steps[j - 1], q);
    }
  }

  lemma {:induction false} EarlyOver(r: Run<State, Step>, i: nat, j: nat, t: Sid, q: nat)
    requires Stretch(r, i, j) && Early(r.states[i], t, q)
    ensures Early(r.states[j], t, q) || exists k :: i <= k <= j && !Queued(r.states[k], t)
    decreases j
  {
    if i < j {
      EarlyOver(r, i, j - 1, t, q);
      if Early(r.states[j - 1], t, q) {
        StepOf(r, j - 1);
        InvInEveryState(r, j - 1);
        EarlyStaysEarly(r.states[j - 1], r.steps[j - 1], t, q);
      }
    }
  }

  lemma {:induction false} LateOver(r: Run<State, Step>, i: nat, j: nat, t: Sid, q: nat)
    requires Stretch(r, i, j) && Late(r.states[i], t, q) && Remaining(r.states[j], q) >= 0
    ensures Late(r.states[j], t, q)
    decreases j
  {
    if i < j {
      StepOf(r, j - 1);
      RemainingFalls(r.states[j - 1], r.steps[j - 1], q);
      LateOver(r, i, j - 1, t, q);
      LateStaysLate(r.states[j - 1], r.steps[j - 1], t, q);
    }
  }

  /** State i: t's handle is in the parked queue behind p others, and t has just pushed the
      message that made it park, the last of `pushed`.  State j: the receiver has read that
      message and looked for a handle to unpark.  In between, t's handle has been taken out
      exactly if fewer handles were before it than there were messages still to be matched
      with a handle, its own included. */
  lemma UnparkedWhenReadIff(r: Run<State, Step>, i: nat, j: nat, t: Sid, p: nat)
    requires Stretch(r, i, j)
    requires r.states[i].pushed != [] && At(r.states[i], t, p)
    requires |r.states[j].popped| == |r.states[i].pushed| && (r.states[j].rx.Notify? || r.states[j].rx.Dec?)
    ensures (exists k :: i <= k <= j && !Queued(r.states[k], t))
       <==> p < |r.states[i].msgs| + One(r.states[i].rx.Unpark?)
  {
    var si, sj, q := r.states[i], r.states[j], |r.states[i].pushed| - 1;
    InvInEveryState(r, i);
    InvInEveryState(r, j);
    assert |si.pushed| == |si.popped| + |Contents(si.msgs)|;
    assert Remaining(si, q) == |si.msgs| + One(si.rx.Unpark?);
    if p < Remaining(si, q) {
      assert Early(si, t, q);
      EarlyOver(r, i, j, t, q);
    } else {
      forall k | i <= k <= j ensures Queued(r.states[k], t) {
        LateAt(r, i, k, j, t, q, p);
      }
    }
  }

  lemma LateAt(r: Run<State, Step>, i: nat, k: nat, j: nat, t: Sid, q: nat, p: nat)
    requires Stretch(r, i, j) && i <= k <= j && At(r.states[i], t, p) && p >= Remaining(r.states[i], q)
    requires Remaining(r.states[j], q) >= 0
    ensures Queued(r.states[k], t)
  {
    assert Late(r.states[i], t, q);
    RemainingOver(r, k, j, q);
    LateOver(r, i, k, t, q);
    var n: nat :| At(r.states[k], t, n) && n >= Remaining(r.states[k], q);
    AtMeansQueued(r.states[k], t, n);
  }

  /** In particular it is when no other sender was between counting and pushing a message. */
  lemma UnparkedWhenReadIfAlone(r: Run<State, Step>, i: nat, j: nat, t: Sid, p: nat)
    requires Stretch(r, i, j)
    requires r.states[i].pushed != [] && At(r.states[i], t, p)
    requires |r.states[j].popped| == |r.states[i].pushed| && (r.states[j].rx.Notify? || r.states[j].rx.Dec?)
    requires InFlight(r.states[i].senders) == {}
    ensures exists k :: i <= k <= j && !Queued(r.states[k], t)
  {
    InvInEveryState(r, i);
    UnparkedWhenReadIff(r, i, j, t, p);
  }

  // ----- a run in which it is not -----

  /** No push of a message or of a handle is half done. */
  predicate Linked(s: State) {
    && (forall i :: 0 <= i < |s.msgs| ==> s.msgs[i].linker == None)
    && (forall i :: 0 <= i < |s.parked| ==> s.parked[i].linker == None)
  }

  /** t is alive, inside no operation, and knows that it is not parked. */
  predicate Unblocked(s: State, t: Sid) { Free(s, t) && !s.senders[t].maybeParked }

  /** A message of t counted past the buffer, and t's handle pushed, links included. */
  function AfterParking(s: State, t: Sid, m: Message): State
    requires t in s.senders
  {
    var x := s.senders[t];
    s.(num := s.num + 1, parked := s.parked + [M.Slot(t, None)],
       senders := s.senders[t := x.(task := None, isParked := true, said := Unasked, pc := Park4(m), accepted := x.accepted + [m])])
  }

  lemma ParkingIsReachable(s: State, t: Sid, m: Message)
    requires Reachable(s) && Linked(s) && Unblocked(s, t) && m.from == t
    requires s.open && s.buffer <= s.num < P.MAX_CAPACITY
    ensures Reachable(AfterParking(s, t, m)) && Linked(AfterParking(s, t, m))
  {
    var s1 := DoInc(DoTrySend(s, t, m), t);
    CountingIsReachable(s, t, m);
    var s2 := DoPark1(s1, t);
    Onwards(s1, Sending(t, Park1Step), s2);
    var s3 := DoPark2(s2, t);
    Onwards(s2, Sending(t, Park2Step), s3);
    var s4 := DoPark3(s3, t);
    Onwards(s3, Sending(t, Park3Step), s4);
    assert s4.parked == s.parked + [M.Slot(t, None)];
    assert s4.senders == AfterParking(s, t, m).senders;
  }

  lemma CountingIsReachable(s: State, t: Sid, m: Message)
    requires Reachable(s) && Unblocked(s, t) && m.from == t && s.open && s.num < P.MAX_CAPACITY
    ensures Reachable(DoInc(DoTrySend(s, t, m), t))
  {
    var s1 := DoTrySend(s, t, m);
    Onwards(s, Sending(t, TrySend(m)), s1);
    Onwards(s1, Sending(t, IncStep), DoInc(s1, t));
  }

  /** The message is pushed, with its link, and the sender believes to be parked. */
  function AfterPushing(s: State, t: Sid, m: Message): State
    requires t in s.senders
  {
    Pushed(s, t, m).(senders := s.senders[t := s.senders[t].(maybeParked := true, said := Sent, pc := Signal)])
  }

  function Pushed(s: State, t: Sid, m: Message): State
    requires t in s.senders
  {
    Put(s, t, s.senders[t].(said := Sent, pc := Signal)).(msgs := s.msgs + [M.Slot(m, None)], pushed := s.pushed + [m])
  }

  lemma PushIsReachable(s: State, t: Sid, m: Message)
    requires Reachable(s) && Linked(s) && t in s.senders && s.senders[t].pc == Push1(m)
    ensures Reachable(Pushed(s, t, m)) && Linked(Pushed(s, t, m))
  {
    var s1 := DoPush1(s, t);
    Onwards(s, Sending(t, Push1Step), s1);
    var s2 := DoPush2(s1, t);
    Onwards(s1, Sending(t, Push2Step), s2);
    assert s2.msgs == s.msgs + [M.Slot(m, None)];
    assert s2 == Pushed(s, t, m);
  }

  lemma PushingIsReachable(s: State, t: Sid, m: Message)
    requires Reachable(s) && Linked(s) && t in s.senders && s.senders[t].pc == Park4(m) && s.open
    ensures Reachable(AfterPushing(s, t, m)) && Linked(AfterPushing(s, t, m))
  {
    var s1 := DoPark4(s, t);
    Onwards(s, Sending(t, Park4Step), s1);
    PushIsReachable(s1, t, m);
    assert Pushed(s1, t, m) == AfterPushing(s, t, m);
  }

  /** The receiver reads the only message and unparks the sender whose handle is oldest. */
  lemma ReadingIsReachable(s: State, a: Sid, m: Message)
    requires Reachable(s) && s.rx == Idle(Nothing) && s.msgs == [M.Slot(m, None)] && s.num >= 1
    requires s.parked != [] && s.parked[0] == M.Slot(a, None)
    ensures Reachable(Notified(s, a).(msgs := [], popped := s.popped + [m], parked := s.parked[1..], num := s.num - 1,
                                      rx := Idle(GotMessage(m))))
  {
    var s1 := DoBeginReceive(s, Try);
    Onwards(s, Receiving(BeginReceive(Try)), s1);
    var s2 := DoPop(s1);
    Onwards(s1, Receiving(PopStep), s2);
    var s3 := DoUnpark(s2);
    Onwards(s2, Receiving(UnparkStep), s3);
    var s4 := DoNotify(s3);
    Onwards(s3, Receiving(NotifyStep), s4);
    var s5 := DoDec(s4);
    Onwards(s4, Receiving(DecStep), s5);
    assert s5 == Notified(s, a).(msgs := [], popped := s.popped + [m], parked := s.parked[1..], num := s.num - 1,
                                 rx := Idle(GotMessage(m)));
  }

  /** Two senders on a channel with buffer 0: both park, in this order, and b pushes its message. */
  lemma BothParked(a: Sid, b: Sid) returns (s: State)
    requires a != RX && b != RX && a != b
    ensures Reachable(s) && s.rx == Idle(Nothing) && s.num == 2 && a in s.senders && b in s.senders
    ensures s.msgs == [M.Slot(Message(b, 0), None)] && s.popped == []
    ensures s.parked == [M.Slot(a, None), M.Slot(b, None)]
    ensures s.senders[b].accepted == [Message(b, 0)] && s.senders[b].isParked && s.senders[b].maybeParked
  {
    var ma, mb := Message(a, 0), Message(b, 0);
    var s0 := Init(0, a);
    StartIsReachable(0, a);
    var s1 := DoClone(s0, b);
    Onwards(s0, Sending(b, Clone), s1);
    ParkingIsReachable(s1, a, ma);
    var s2 := AfterParking(s1, a, ma);
    ParkingIsReachable(s2, b, mb);
    var s3 := AfterParking(s2, b, mb);
    PushingIsReachable(s3, b, mb);
    s := AfterPushing(s3, b, mb);
  }

  /** The receiver reads that message.  It has unparked a; b, whose one message has been read,
      stays parked. */
  lemma ReadButStillParked(a: Sid, b: Sid)
    requires a != RX && b != RX && a != b
    ensures exists s :: Reachable(s) && b in s.senders
              && s.rx == Idle(GotMessage(Message(b, 0))) && s.popped == s.senders[b].accepted == [Message(b, 0)]
              && s.senders[b].isParked && s.senders[b].maybeParked && Queued(s, b)
  {
    var mb := Message(b, 0);
    var s4 := BothParked(a, b);
    ReadingIsReachable(s4, a, mb);
    var s5 := Notified(s4, a).(msgs := [], popped := s4.popped + [mb], parked := s4.parked[1..], num := s4.num - 1,
                               rx := Idle(GotMessage(mb)));
    assert s5.parked == [M.Slot(b, None)] && Contents(s5.parked)[0] == b;
    assert s5.popped == [mb];
  }

  /** t is about to call the waker it found in `recv_task`, which is none. */
  function NothingToWake(s: State, t: Sid): State
    requires t in s.senders
  {
    GoTo(s, t, Signaled).(aw := A.Init.(pc := map[t := A.WakeCall(None)]))
  }

  lemma SignaledIsReachable(s: State, t: Sid)
    requires Reachable(s) && t in s.senders && s.senders[t].pc == Signal && s.aw == A.Init
    ensures Reachable(NothingToWake(s, t))
  {
    var s1 := DoSignal(s, t);
    Onwards(s, Sending(t, SignalStep), s1);
    var s2 := DoAwStep(s1, A.WakeTake(t));
    Onwards(s1, AwStep(A.WakeTake(t)), s2);
    var s3 := DoAwStep(s2, A.WakeRelease(t));
    Onwards(s2, AwStep(A.WakeRelease(t)), s3);
    assert s3 == NothingToWake(s, t);
  }

  /** The wake-up of a receiver that never registered changes nothing but the position of t. */
  lemma SignalIsReachable(s: State, t: Sid)
    requires Reachable(s) && t in s.senders && s.senders[t].pc == Signal && s.aw == A.Init
    ensures Reachable(GoTo(s, t, Quiet))
  {
    SignaledIsReachable(s, t);
    var s3 := NothingToWake(s, t);
    var s4 := DoAwStep(s3, A.WakeWaker(t));
    Onwards(s3, AwStep(A.WakeWaker(t)), s4);
    assert s4.aw == A.Init;
    var s5 := DoSenderDone(s4, t);
    Onwards(s4, Sending(t, SenderDone), s5);
    assert s5 == GoTo(s, t, Quiet);
  }

  // ----- how far the capacity is exceeded -----

  /** An open channel with buffer b, n live senders, and o senders dropped while parked. */
  ghost predicate With(s: State, b: nat, n: nat, o: nat) {
    Reachable(s) && s.open && s.buffer == b && s.numSenders == n && |Orphans(s)| == o
  }

  /** ... in which `num` messages have been sent and none read, and t is free to send. */
  ghost predicate Ready(s: State, b: nat, n: nat, o: nat, num: nat, t: Sid, next: Sid) {
    && With(s, b, n, o) && Linked(s) && s.num == num && Unblocked(s, t)
    && s.rx == Idle(Nothing) && s.aw == A.Init
    && RX < next && forall u :: u in s.senders ==> u < next
  }

  ghost predicate SomeReady(b: nat, n: nat, o: nat, num: nat) {
    exists s, t, next :: Ready(s, b, n, o, num, t, next)
  }

  lemma StartReady(b: nat)
    requires b < P.MAX_BUFFER
    ensures SomeReady(b, 1, 0, 0)
  {
    StartIsReachable(b, 1);
    assert Orphans(Init(b, 1)) == {};
    assert Ready(Init(b, 1), b, 1, 0, 0, 1, 2);
  }

  /** t sends a message that fits the buffer. */
  lemma FillsBuffer(s: State, b: nat, n: nat, o: nat, num: nat, t: Sid, next: Sid)
    requires Ready(s, b, n, o, num, t, next) && num < b && num < P.MAX_CAPACITY
    ensures SomeReady(b, n, o, num + 1)
  {
    var m := Message(t, 0);
    SendingIsReachable(s, t, m);
    var s' := AfterSending(s, t, m);
    assert Orphans(s') == Orphans(s);
    assert Ready(s', b, n, o, num + 1, t, next);
  }

  /** A message of t counted within the buffer and pushed, and the receiver signaled. */
  function AfterSending(s: State, t: Sid, m: Message): State
    requires t in s.senders
  {
    s.(num := s.num + 1, msgs := s.msgs + [M.Slot(m, None)], pushed := s.pushed + [m],
       senders := s.senders[t := s.senders[t].(said := Sent, accepted := s.senders[t].accepted + [m])])
  }

  lemma SendingIsReachable(s: State, t: Sid, m: Message)
    requires Reachable(s) && Linked(s) && Unblocked(s, t) && m.from == t && s.aw == A.Init
    requires s.open && s.num < s.buffer && s.num < P.MAX_CAPACITY
    ensures Reachable(AfterSending(s, t, m)) && Linked(AfterSending(s, t, m))
  {
    CountingIsReachable(s, t, m);
    var s1 := DoInc(DoTrySend(s, t, m), t);
    PushIsReachable(s1, t, m);
    var s2 := Pushed(s1, t, m);
    SignalIsReachable(s2, t);
    assert GoTo(s2, t, Quiet) == AfterSending(s, t, m);
  }

  lemma CloneReady(s: State, b: nat, n: nat, o: nat, num: nat, t: Sid, next: Sid)
    requires Ready(s, b, n, o, num, t, next) && n >= 1 && b + n < P.MAX_CAPACITY
    ensures var s' := DoClone(s, next); Ready(s', b, n + 1, o, num, next, next + 1) && Unblocked(s', t)
  {
    var s' := DoClone(s, next);
    Onwards(s, Sending(next, Clone), s');
    assert Orphans(s') == Orphans(s);
  }

  /** A clone of t parks, and is dropped. */
  lemma LeavesOrphan(s: State, b: nat, n: nat, o: nat, num: nat, t: Sid, next: Sid)
    requires Ready(s, b, n, o, num, t, next) && b <= num < P.MAX_CAPACITY && n >= 1 && b + n < P.MAX_CAPACITY
    ensures SomeReady(b, n, o + 1, num + 1)
  {
    var u, m := next, Message(next, 0);
    CloneReady(s, b, n, o, num, t, next);
    var s1 := DoClone(s, u);
    ParkingIsReachable(s1, u, m);
    var s2 := AfterParking(s1, u, m);
    PushingIsReachable(s2, u, m);
    var s3 := AfterPushing(s2, u, m);
    SignalIsReachable(s3, u);
    var s4 := GoTo(s3, u, Quiet);
    var s5 := DoDrop(s4, u);
    Onwards(s4, Sending(u, Drop), s5);
    OrphanAdded(s, s5, u);
    assert Ready(s5, b, n, o + 1, num + 1, t, next + 1);
  }

  lemma OrphanAdded(s: State, s': State, u: Sid)
    requires s'.parked == s.parked + [M.Slot(u, None)] && u !in s.senders && u in s'.senders && !s'.senders[u].alive
    requires s'.senders == s.senders[u := s'.senders[u]]
    ensures |Orphans(s')| == |Orphans(s)| + 1
  {
    ContentsAppend(s.parked, M.Slot(u, None));
    assert Contents(s'.parked)[|s.parked|] == u;
    assert Orphans(s') == Orphans(s) + {u};
  }

  /** t parks and stays alive; a clone of it is free to send. */
  lemma LivesParked(s: State, b: nat, n: nat, o: nat, num: nat, t: Sid, next: Sid)
    requires Ready(s, b, n, o, num, t, next) && b <= num < P.MAX_CAPACITY && n >= 1 && b + n < P.MAX_CAPACITY
    ensures SomeReady(b, n + 1, o, num + 1)
  {
    var m := Message(t, 0);
    CloneReady(s, b, n, o, num, t, next);
    var s1 := DoClone(s, next);
    ParkingIsReachable(s1, t, m);
    var s2 := AfterParking(s1, t, m);
    ParkedNoOrphan(s1, s2, t);
    assert Ready(s2, b, n + 1, o, num + 1, next, next + 1);
  }

  lemma ParkedNoOrphan(s: State, s': State, t: Sid)
    requires s'.parked == s.parked + [M.Slot(t, None)] && t in s.senders && t in s'.senders
    requires s.senders[t].alive && s'.senders[t].alive && s'.senders == s.senders[t := s'.senders[t]]
    ensures Orphans(s') == Orphans(s)
  {
    ContentsAppend(s.parked, M.Slot(t, None));
  }

  lemma {:induction false} BufferFull(b: nat, num: nat)
    requires num <= b < P.MAX_BUFFER
    ensures SomeReady(b, 1, 0, num)
  {
    if num == 0 {
      StartReady(b);
    } else {
      BufferFull(b, num - 1);
      var s, t, next :| Ready(s, b, 1, 0, num - 1, t, next);
      FillsBuffer(s, b, 1, 0, num - 1, t, next);
    }
  }

  lemma {:induction false} OrphansLeft(b: nat, o: nat)
    requires b < P.MAX_BUFFER && b + 1 + o <= P.MAX_CAPACITY
    ensures SomeReady(b, 1, o, b + o)
  {
    if o == 0 {
      BufferFull(b, b);
    } else {
      OrphansLeft(b, o - 1);
      var s, t, next :| Ready(s, b, 1, o - 1, b + o - 1, t, next);
      LeavesOrphan(s, b, 1, o - 1, b + o - 1, t, next);
    }
  }

  lemma {:induction false} OthersParked(b: nat, n: nat, o: nat)
    requires b < P.MAX_BUFFER && n >= 1 && b + n + o <= P.MAX_CAPACITY
    ensures SomeReady(b, n, o, b + n - 1 + o)
    decreases n
  {
    if n == 1 {
      OrphansLeft(b, o);
    } else {
      OthersParked(b, n - 1, o);
      var s, t, next :| Ready(s, b, n - 1, o, b + n - 2 + o, t, next);
      LivesParked(s, b, n - 1, o, b + n - 2 + o, t, next);
    }
  }

  /** For every buffer, number of live senders and number of senders dropped while parked, the
      accepted and unread messages can be as many as `CapacityBound` allows: the buffer, one for
      each live sender, and one for each dropped one. */
  lemma CapacityIsReached(b: nat, n: nat, o: nat)
    requires b < P.MAX_BUFFER && n >= 1 && b + n + o <= P.MAX_CAPACITY
    ensures exists s :: With(s, b, n, o) && Unpopped(s) == b + n + o
  {
    OthersParked(b, n, o);
    var s, t, next :| Ready(s, b, n, o, b + n - 1 + o, t, next);
    var m := Message(t, 0);
    ParkingIsReachable(s, t, m);
    var s' := AfterParking(s, t, m);
    ParkedNoOrphan(s, s', t);
    CountIsExact(s');
    assert With(s', b, n, o) && Unpopped(s') == b + n + o;
  }

  lemma CountIsExact(s: State)
    requires Reachable(s)
    ensures s.num == Unpopped(s) + One(Uncounted(s.rx))
  {
    var r: Run<State, Step> :| IsRun(IsInit, Next, r) && r.states[|r.steps|] == s;
    CountNeverBorrows(r, |r.steps|);
  }

  lemma CapacityBoundOf(s: State, b: nat, n: nat, o: nat)
    requires With(s, b, n, o)
    ensures Unpopped(s) <= b + n + o
  {
    var r: Run<State, Step> :| IsRun(IsInit, Next, r) && r.states[|r.steps|] == s;
    CapacityBound(r, |r.steps|);
  }

  /** So the documented capacity, the buffer plus the number of senders, is never exceeded
      exactly when no sender was dropped while parked: it is a bound on every open channel with
      buffer b, n live senders and o dropped ones if and only if o is zero. */
  lemma CapacityAsDocumentedIff(b: nat, n: nat, o: nat)
    requires b < P.MAX_BUFFER && n >= 1 && b + n + o <= P.MAX_CAPACITY
    ensures (forall s :: With(s, b, n, o) ==> Unpopped(s) <= b + n) <==> o == 0
  {
    if o == 0 {
      forall s | With(s, b, n, o) ensures Unpopped(s) <= b + n { CapacityBoundOf(s, b, n, o); }
    } else {
      CapacityIsReached(b, n, o);
    }
  }
}
