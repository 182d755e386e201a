/** What the bounded channel promises, in every state of every run. */
module ChannelGuarantees {
  import opened Runs
  import opened Chains
  import opened Channels
  import opened ChannelParking

  ghost predicate SomeoneCloses(senders: map<Sid, Sender>) {
    exists t :: t in senders && senders[t].pc.CloseMark?
  }

  /** An open channel has a live sender, or the last one is about to close it. */
  ghost predicate CloseOk(s: State) {
    s.open ==> s.numSenders >= 1 || SomeoneCloses(s.senders)
  }

  /** The end of the stream is announced only on a closed, empty channel. */
  predicate EndOk(s: State) { s.rx == Idle(EndOfStream) ==> !s.open && s.num == 0 }

  ghost predicate Inv(s: State) {
    Counts(s) && OrderOk(s) && HistoryOk(s) && ParkingOk(s) && CloseOk(s) && EndOk(s)
  }

  lemma SendKeepsClose(s: State, t: Sid, o: SenderOp)
    requires CanSend(s, t, o) && CloseOk(s)
    ensures CloseOk(Send(s, t, o))
  {
    var s' := Send(s, t, o);
    SendTouchesOne(s, t, o);
    if o.Drop? {
      assert s.numSenders == 1 ==> s'.senders[t].pc.CloseMark?;
    } else if s'.open {
      assert s.open && s'.numSenders >= s.numSenders;
      if s.numSenders == 0 {
        var u :| u in s.senders && s.senders[u].pc.CloseMark?;
        assert u != t && u in s'.senders;
      }
    }
  }

  lemma ReceiveKeepsClose(s: State, o: ReceiverOp)
    requires CanReceive(s, o) && CloseOk(s)
    ensures CloseOk(Receive(s, o))
  {
    var s' := Receive(s, o);
    assert s'.numSenders == s.numSenders && (s'.open ==> s.open) && s'.senders.Keys == s.senders.Keys;
    if s'.open && s.numSenders == 0 {
      var u :| u in s.senders && s.senders[u].pc.CloseMark?;
      assert u in s'.senders && s'.senders[u].pc == s.senders[u].pc;
    }
  }

  lemma KeepsEnd(s: State, e: Step)
    requires Enabled(s, e) && EndOk(s)
    ensures EndOk(Apply(s, e))
  {
    match e
    case Sending(t, o) => SendTouchesOne(s, t, o);
    case Receiving(o) =>
    case AwStep(a) =>
  }

  lemma KeepsInv(s: State, e: Step)
    requires Inv(s) && Enabled(s, e)
    ensures Inv(Apply(s, e))
  {
    KeepsCounts(s, e);
    KeepsOrder(s, e);
    KeepsHistory(s, e);
    KeepsParking(s, e);
    KeepsEnd(s, e);
    match e
    case Sending(t, o) => SendKeepsClose(s, t, o);
    case Receiving(o) => ReceiveKeepsClose(s, o);
    case AwStep(a) =>
  }

  lemma InitInv(buffer: nat, t: Sid)
    ensures Inv(Init(buffer, t))
  {
    CountPut(map[], t, FRESH);
    assert map[][t := FRESH] == map[t := FRESH];
  }

  lemma InvInEveryState(r: Run<State, Step>, k: nat)
    requires IsRun(IsInit, Next, r) && k < |r.states|
    ensures Inv(r.states[k])
  {
    forall s | IsInit(s) ensures Inv(s) {
      var buffer: nat, t: Sid :| t != RX && s == Init(buffer, t);
      InitInv(buffer, t);
    }
    forall s, e, s' | Inv(s) && Next(s, e, s') ensures Inv(s') { KeepsInv(s, e); }
    Invariance(IsInit, Next, Inv, r, k);
  }

  lemma StepOf(r: Run<State, Step>, k: nat)
    requires IsRun(IsInit, Next, r) && k < |r.steps|
    ensures Enabled(r.states[k], r.steps[k]) && r.states[k + 1] == Apply(r.states[k], r.steps[k])
  {
    assert Next(r.states[k], r.steps[k], r.states[k + 1]);
  }

  // ----- counting -----

  /** `num_messages` is exactly what was counted in and not yet counted out, so the
      `fetch_sub` of `dec_num_messages` never borrows into the open bit. */
  lemma CountNeverBorrows(r: Run<State, Step>, k: nat)
    requires IsRun(IsInit, Next, r) && k < |r.states|
    ensures var s := r.states[k];
            && s.num == |s.msgs| + |InFlight(s.senders)| + One(Uncounted(s.rx))
            && (s.rx.Dec? ==> s.num >= 1)
  {
    InvInEveryState(r, k);
  }

  lemma DecNeverStuck(s: State)
    requires Reachable(s) && s.rx.Dec?
    ensures s.num >= 1
  {
    var r: Run<State, Step> :| IsRun(IsInit, Next, r) && r.states[|r.steps|] == s;
    CountNeverBorrows(r, |r.steps|);
  }

  /** Parked handles, and senders about to park, never outnumber the messages in the channel. */
  lemma ParkedNeverOutnumber(r: Run<State, Step>, k: nat)
    requires IsRun(IsInit, Next, r) && k < |r.states|
    ensures var s := r.states[k]; |s.parked| + |Parking(s.senders)| <= s.num
  {
    InvInEveryState(r, k);
  }

  /** So once every accepted message has been received, no sender is parked. */
  lemma NobodyStrandedWhenEmpty(r: Run<State, Step>, k: nat, t: Sid)
    requires IsRun(IsInit, Next, r) && k < |r.states|
    requires r.states[k].num == 0 && t in r.states[k].senders
    ensures !r.states[k].senders[t].isParked && r.states[k].senders[t].waiting == None
  {
    InvInEveryState(r, k);
    NotParkedWhenEmpty(r.states[k], t);
  }

  lemma NotParkedWhenEmpty(s: State, t: Sid)
    requires Inv(s) && s.num == 0 && t in s.senders
    ensures !s.senders[t].isParked && s.senders[t].waiting == None
  {
    assert SenderOk(s.senders[t], t in Contents(s.parked), HandleOf(s.rx) == Some(t), s.open, s.drained);
    assert s.senders[t].pc.Park2? ==> t in Parking(s.senders);
  }

  /** After `Receiver::close` has run to its end no sender is blocked: none both believes to be
      parked and is parked, and none is still waiting for capacity. */
  lemma NobodyBlockedAfterClose(r: Run<State, Step>, k: nat, t: Sid)
    requires IsRun(IsInit, Next, r) && k < |r.states|
    requires r.states[k].drained && t in r.states[k].senders
    ensures var x := r.states[k].senders[t]; !r.states[k].open && !(x.maybeParked && x.isParked) && x.waiting == None
  {
    InvInEveryState(r, k);
    var s := r.states[k];
    assert SenderOk(s.senders[t], t in Contents(s.parked), HandleOf(s.rx) == Some(t), s.open, s.drained);
  }

  // ----- capacity -----

  /** Senders dropped while their handle was in the parked queue. */
  function Orphans(s: State): set<Sid> { set t | t in s.senders && !s.senders[t].alive && t in Contents(s.parked) }

  lemma HandlesBelongToSenders(s: State)
    requires ParkingOk(s)
    ensures Members(Contents(s.parked)) <= Live(s.senders) + Orphans(s)
  {
    var handles := Contents(s.parked);
    forall t | t in handles ensures t in s.senders {
      var i :| 0 <= i < |handles| && handles[i] == t;
      assert LinkerOk(s.parked[i], s.senders);
    }
  }

  lemma ParkersAreNew(s: State)
    requires ParkingOk(s)
    ensures Parking(s.senders) !! Members(Contents(s.parked)) && Parking(s.senders) <= Live(s.senders)
  {
    forall t | t in Parking(s.senders) ensures t !in Contents(s.parked) && t in Live(s.senders) {
      assert SenderOk(s.senders[t], t in Contents(s.parked), HandleOf(s.rx) == Some(t), s.open, s.drained);
    }
  }

  lemma ParkedAreSenders(s: State)
    requires ParkingOk(s)
    ensures |s.parked| + |Parking(s.senders)| <= |Live(s.senders)| + |Orphans(s)|
  {
    MembersOfDistinct(Contents(s.parked));
    HandlesBelongToSenders(s);
    ParkersAreNew(s);
    TwoPartsFit(Members(Contents(s.parked)), Parking(s.senders), Live(s.senders), Orphans(s));
  }

  lemma TwoPartsFit(a: set<Sid>, b: set<Sid>, c: set<Sid>, d: set<Sid>)
    requires a !! b && a + b <= c + d
    ensures |a| + |b| <= |c| + |d|
  {
    assert |a + b| == |a| + |b|;
    Included(a + b, c + d);
  }

  /** On an open channel the accepted messages the receiver has not popped are at most the
      buffer, one for each live sender, and one for each sender dropped while parked; no sender
      has two handles in the parked queue. */
  lemma CapacityBound(r: Run<State, Step>, k: nat)
    requires IsRun(IsInit, Next, r) && k < |r.states| && r.states[k].open
    ensures var s := r.states[k];
            && Unpopped(s) <= s.buffer + |s.parked| + |Parking(s.senders)|
            && NoDuplicates(Contents(s.parked))
            && Unpopped(s) <= s.buffer + s.numSenders + |Orphans(s)|
  {
    InvInEveryState(r, k);
    ParkedAreSenders(r.states[k]);
  }

  // ----- delivery -----

  /** Messages are popped once each in push order, and what a sender pushed, followed by the
      message it is about to push, is what was accepted from it, in its order. */
  lemma ExactlyOnceInOrder(r: Run<State, Step>, k: nat, t: Sid)
    requires IsRun(IsInit, Next, r) && k < |r.states| && t in r.states[k].senders
    ensures var s := r.states[k];
            && s.pushed == s.popped + Contents(s.msgs)
            && From(s.pushed, t) + Holding(s.senders[t].pc) == s.senders[t].accepted
  {
    InvInEveryState(r, k);
    var s := r.states[k];
    assert SentOk(s.senders[t], t, s.pushed);
  }

  /** `Ready(None)`: the channel is closed, and everything accepted from any sender was delivered. */
  lemma EndMeansAllDelivered(r: Run<State, Step>, k: nat, t: Sid)
    requires IsRun(IsInit, Next, r) && k < |r.states|
    requires r.states[k].rx == Idle(EndOfStream) && t in r.states[k].senders
    ensures var s := r.states[k]; !s.open && s.popped == s.pushed && From(s.popped, t) == s.senders[t].accepted
  {
    InvInEveryState(r, k);
    var s := r.states[k];
    assert SentOk(s.senders[t], t, s.pushed);
    assert Counted(s.senders[t].pc) ==> t in InFlight(s.senders);
    assert s.msgs == [];
    assert s.popped + Contents(s.msgs) == s.popped;
  }

  lemma EndStaysOneStep(s: State, e: Step, s': State)
    requires Inv(s) && Next(s, e, s') && s.rx == Idle(EndOfStream)
    ensures s'.rx == s.rx && s'.pushed == s.pushed && s'.popped == s.popped
  {
    NoneInFlight(s);
    if e.Sending? { SendTouchesOne(s, e.t, e.so); }
  }

  lemma NoneInFlight(s: State)
    requires Inv(s) && s.num == 0
    ensures forall t :: t in s.senders ==> !Counted(s.senders[t].pc)
  {
    assert InFlight(s.senders) == {};
    forall t | t in s.senders ensures !Counted(s.senders[t].pc) { assert t !in InFlight(s.senders); }
  }

  /** And nothing is ever accepted, pushed or delivered afterwards. */
  lemma EndIsFinal(r: Run<State, Step>, i: nat, j: nat)
    requires IsRun(IsInit, Next, r) && i <= j < |r.states|
    requires r.states[i].rx == Idle(EndOfStream)
    ensures r.states[j].rx == Idle(EndOfStream)
    ensures r.states[j].pushed == r.states[i].pushed && r.states[j].popped == r.states[i].popped
  {
    var s0 := r.states[i];
    var keep := (s: State) => s.rx == s0.rx && s.pushed == s0.pushed && s.popped == s0.popped;
    forall k | i <= k < j && keep(r.states[k]) ensures keep(r.states[k + 1]) {
      InvInEveryState(r, k);
      EndStaysOneStep(r.states[k], r.steps[k], r.states[k + 1]);
    }
    Persistence(keep, r, i, j);
  }

  /** `pop_spin` on either queue spins only while some sender is about to write the link it
      waits for, and that write ends the spinning. */
  lemma SpinsOnlyForRunningSender(r: Run<State, Step>, k: nat)
    requires IsRun(IsInit, Next, r) && k < |r.states|
    ensures var s := r.states[k];
            && (!Poppable(s.msgs) ==> exists t :: CanSend(s, t, Push2Step) && Poppable(Send(s, t, Push2Step).msgs))
            && (!Poppable(s.parked) ==> exists t :: CanSend(s, t, Park3Step) && Poppable(Send(s, t, Park3Step).parked))
  {
    InvInEveryState(r, k);
    var s := r.states[k];
    if !Poppable(s.msgs) {
      var t := s.msgs[0].linker.value;
      assert CanSend(s, t, Push2Step) && Poppable(DoPush2(s, t).msgs);
    }
    if !Poppable(s.parked) {
      assert LinkerOk(s.parked[0], s.senders);
      var t := s.parked[0].value;
      assert CanSend(s, t, Park3Step) && Poppable(DoPark3(s, t).parked);
    }
  }

  // ----- waking a sender -----

  predicate Waits(s: State, t: Sid, w: Waker) { t in s.senders && s.senders[t].waiting == Some(w) }

  /** t itself calls `try_send` or `poll_ready` again. */
  predicate AsksAgain(e: Step, t: Sid) { e.Sending? && e.t == t && (e.so.CheckParkedStep? || e.so.PollTaskStep?) }

  lemma SenderKeepsWaiting(s: State, t: Sid, o: SenderOp, w: Waker)
    requires Inv(s) && CanSend(s, t, o) && Waits(s, t, w) && !o.CheckParkedStep? && !o.PollTaskStep?
    ensures Waits(Send(s, t, o), t, w)
  {
    assert SenderOk(s.senders[t], t in Contents(s.parked), HandleOf(s.rx) == Some(t), s.open, s.drained);
    match o
    case CloseChannel => case MarkClosed => case TrySend(m) => case Push2Step =>
    case SignalStep => case SenderDone => case PollReady(_) => case Drop =>
    case Park1Step => case Park2Step => case Park3Step => case Park4Step => case IncStep => case Push1Step =>
  }

  lemma NotifyKeepsWaiting(s: State, o: ReceiverOp, t: Sid, w: Waker)
    requires CanReceive(s, o) && (o.NotifyStep? || o.CloseNotifyStep?) && Waits(s, t, w)
    requires s.senders[t].task == s.senders[t].waiting
    ensures Waits(Receive(s, o), t, w) || Receive(s, o).wakes == s.wakes + [w]
  {
    match o
    case NotifyStep => case CloseNotifyStep =>
  }

  lemma OtherReceiverSteps(s: State, o: ReceiverOp)
    requires CanReceive(s, o) && !o.NotifyStep? && !o.CloseNotifyStep?
    ensures Receive(s, o).senders == s.senders
  {
    match o
    case UnparkStep => case CloseDrainStep => case BeginReceive(_) =>
    case PopStep => case DecStep => case LoadStateStep => case Registered => case BeginClose => case CloseSetStep =>
  }

  lemma ReceiverKeepsWaiting(s: State, o: ReceiverOp, t: Sid, w: Waker)
    requires Inv(s) && CanReceive(s, o) && Waits(s, t, w)
    ensures Waits(Receive(s, o), t, w) || Receive(s, o).wakes == s.wakes + [w]
  {
    assert SenderOk(s.senders[t], t in Contents(s.parked), HandleOf(s.rx) == Some(t), s.open, s.drained);
    if o.NotifyStep? || o.CloseNotifyStep? { NotifyKeepsWaiting(s, o, t, w); } else { OtherReceiverSteps(s, o); }
  }

  /** A waiting sender stops waiting only by being woken, or by asking again. */
  lemma WaitingEndsWithWake(s: State, e: Step, t: Sid, w: Waker)
    requires Inv(s) && Enabled(s, e) && Waits(s, t, w) && !AsksAgain(e, t)
    ensures Waits(Apply(s, e), t, w) || Apply(s, e).wakes == s.wakes + [w]
  {
    match e
    case Sending(u, o) => if u == t { SenderKeepsWaiting(s, t, o, w); } else { SendTouchesOne(s, u, o); }
    case Receiving(o) => ReceiverKeepsWaiting(s, o, t, w);
    case AwStep(a) =>
  }

  lemma WakesGrow(s: State, e: Step)
    requires Enabled(s, e)
    ensures s.wakes <= Apply(s, e).wakes
  {
    if e.Sending? { SendTouchesOne(s, e.t, e.so); }
  }

  /** t still waits with waker w, or w has been woken since the log had n entries. */
  predicate WaitsOrWoken(s: State, t: Sid, w: Waker, n: nat) {
    n <= |s.wakes| && (Waits(s, t, w) || w in s.wakes[n..])
  }

  lemma WokenLater(log: seq<Waker>, log': seq<Waker>, n: nat, w: Waker)
    requires n <= |log| && log <= log'
    ensures w in log[n..] ==> w in log'[n..]
    ensures log' == log + [w] ==> w in log'[n..]
  {
    if w in log[n..] { assert log[n..] <= log'[n..]; }
    if log' == log + [w] { assert log'[n..][|log| - n] == w; }
  }

  lemma WaitsOneStep(s: State, e: Step, s': State, t: Sid, w: Waker, n: nat)
    requires Inv(s) && Next(s, e, s') && !AsksAgain(e, t) && WaitsOrWoken(s, t, w, n)
    ensures WaitsOrWoken(s', t, w, n)
  {
    WakesGrow(s, e);
    WokenLater(s.wakes, s'.wakes, n, w);
    if Waits(s, t, w) { WaitingEndsWithWake(s, e, t, w); }
  }

  lemma WaitingOrWoken(r: Run<State, Step>, i: nat, j: nat, t: Sid, w: Waker)
    requires IsRun(IsInit, Next, r) && i <= j < |r.states|
    requires Waits(r.states[i], t, w)
    requires forall k :: i <= k < j ==> !AsksAgain(r.steps[k], t)
    ensures WaitsOrWoken(r.states[j], t, w, |r.states[i].wakes|)
  {
    var n := |r.states[i].wakes|;
    var keep := (s: State) => WaitsOrWoken(s, t, w, n);
    forall k | i <= k < j && keep(r.states[k]) ensures keep(r.states[k + 1]) {
      InvInEveryState(r, k);
      WaitsOneStep(r.states[k], r.steps[k], r.states[k + 1], t, w, n);
    }
    Persistence(keep, r, i, j);
  }

  /** `poll_ready` returned Pending with waker w.  If the sender has not called `try_send` or
      `poll_ready` since, then by the time every accepted message has been received, or
      `Receiver::close` has finished, w has been woken. */
  lemma PendingSenderIsWoken(r: Run<State, Step>, i: nat, j: nat, t: Sid, w: Waker)
    requires IsRun(IsInit, Next, r) && i <= j < |r.states|
    requires Waits(r.states[i], t, w)
    requires forall k :: i <= k < j ==> !AsksAgain(r.steps[k], t)
    requires r.states[j].num == 0 || r.states[j].drained
    ensures |r.states[i].wakes| <= |r.states[j].wakes| && w in r.states[j].wakes[|r.states[i].wakes|..]
  {
    WaitingOrWoken(r, i, j, t, w);
    if Waits(r.states[j], t, w) {
      if r.states[j].num == 0 { NobodyStrandedWhenEmpty(r, j, t); } else { NobodyBlockedAfterClose(r, j, t); }
    }
  }
}
