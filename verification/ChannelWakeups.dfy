/** The receiver of the bounded channel is always woken: `Receiver::poll_next`, the senders'
    signals and the last sender's close, on top of AtomicWakers (futures-channel/src/mpsc/mod.rs). */
module ChannelWakeups {
  import opened Runs
  import opened Channels
  import opened ChannelParking
  import G = ChannelGuarantees
  import A = AtomicWakers

  /** Only the receiver registers, and only while it is in `register`; a sender inside the
      waker is there to wake. */
  predicate InWakerOk(p: A.Pc, t: Tid, senders: map<Sid, Sender>, rx: ReceiverPc) {
    if t == RX then rx.Registering? && A.InRegister(p)
    else t in senders && senders[t].pc.Signaled? && !A.InRegister(p)
  }

  ghost predicate UsersOk(s: State) {
    && RX !in s.senders
    && forall t :: t in s.aw.pc ==> InWakerOk(s.aw.pc[t], t, s.senders, s.rx)
  }

  /** The receiver has registered w in the current call of poll_next, or in the one that
      returned Pending. */
  function RegisteredAs(rx: ReceiverPc): Option<Waker> {
    match rx
    case Registering(w) => Some(w)
    case Pop(Second(w)) => Some(w)
    case LoadState(Second(w)) => Some(w)
    case Idle(Parked(w)) => Some(w)
    case _ => None
  }

  ghost predicate RegistrationOk(s: State) {
    RegisteredAs(s.rx).Some? ==>
      s.aw.last.Some? && s.aw.last.value.w == RegisteredAs(s.rx).value && s.aw.last.value.tid == RX
  }

  /** A sender that has published something and not yet called `recv_task.wake()`. */
  predicate WillSignal(pc: SenderPc) { pc.Push2? || pc.Signal? }

  ghost predicate SomeoneWillSignal(senders: map<Sid, Sender>) {
    exists t :: t in senders && WillSignal(senders[t].pc)
  }

  /** The receiver's task has been woken since it registered, or is about to be. */
  ghost predicate Alert(s: State) {
    (s.aw.last.Some? && A.Covered(s.aw, s.aw.last.value)) || SomeoneWillSignal(s.senders)
  }

  /** The second look at the queue found it empty, or poll_next has returned Pending. */
  predicate Relies(rx: ReceiverPc) { (rx.LoadState? && rx.mode.Second?) || (rx.Idle? && rx.a.Parked?) }

  predicate Sleeps(rx: ReceiverPc) { rx.Idle? && rx.a.Parked? }

  /** There is something the sleeping receiver would want to know. */
  predicate News(s: State) { s.msgs != [] || (Sleeps(s.rx) && !s.open && s.num == 0) }

  ghost predicate AlertOk(s: State) { Relies(s.rx) && News(s) ==> Alert(s) }

  ghost predicate WakesOk(s: State) {
    A.Inv(s.aw) && UsersOk(s) && RegistrationOk(s) && AlertOk(s)
  }

  // ----- who is inside the waker -----

  lemma SendKeepsUsers(s: State, t: Sid, o: SenderOp)
    requires CanSend(s, t, o) && UsersOk(s)
    ensures UsersOk(Send(s, t, o))
  {
    var s' := Send(s, t, o);
    SendTouchesOne(s, t, o);
    if !o.SignalStep? {
      SendLeavesWaker(s, t, o);
    }
    forall u | u in s'.aw.pc ensures InWakerOk(s'.aw.pc[u], u, s'.senders, s'.rx) {
      if u in s.aw.pc { assert InWakerOk(s.aw.pc[u], u, s.senders, s.rx); }
    }
  }

  lemma SendLeavesWaker(s: State, t: Sid, o: SenderOp)
    requires CanSend(s, t, o) && !o.SignalStep?
    ensures Send(s, t, o).aw == s.aw
    ensures !o.Clone? && s.senders[t].pc.Signaled? ==> o.SenderDone?
  {
    match o
    case CloseChannel => case MarkClosed => case TrySend(m) => case CheckParkedStep => case Push2Step =>
    case SenderDone => case PollReady(w) => case PollTaskStep => case Drop => case Clone =>
    case Park1Step => case Park2Step => case Park3Step => case Park4Step => case IncStep => case Push1Step =>
  }

  lemma ReceiveKeepsUsers(s: State, o: ReceiverOp)
    requires CanReceive(s, o) && UsersOk(s) && ParkingOk(s)
    ensures UsersOk(Receive(s, o))
  {
    var s' := Receive(s, o);
    ReceiveLeavesSenders(s, o);
    RegisteringStays(s, o);
    forall u | u in s'.aw.pc ensures InWakerOk(s'.aw.pc[u], u, s'.senders, s'.rx) {
      if u in s.aw.pc { assert InWakerOk(s.aw.pc[u], u, s.senders, s.rx); }
    }
  }

  /** The receiver leaves `register` only when it is through, and enters it with its first step. */
  lemma RegisteringStays(s: State, o: ReceiverOp)
    requires CanReceive(s, o)
    ensures var s' := Receive(s, o);
            && (RX in s.aw.pc && s.rx.Registering? ==> s'.rx == s.rx)
            && (forall u :: u in s'.aw.pc && u != RX ==> u in s.aw.pc && s'.aw.pc[u] == s.aw.pc[u])
            && (RX in s'.aw.pc && RX !in s.aw.pc ==> s'.rx.Registering? && A.InRegister(s'.aw.pc[RX]))
  {
    match o
    case NotifyStep => case CloseNotifyStep => case UnparkStep => case CloseDrainStep => case BeginReceive(_) =>
    case PopStep => case DecStep => case LoadStateStep => case Registered => case BeginClose => case CloseSetStep =>
  }

  lemma ReceiveLeavesSenders(s: State, o: ReceiverOp)
    requires CanReceive(s, o)
    ensures var s' := Receive(s, o);
            && s'.senders.Keys == s.senders.Keys
            && (forall t :: t in s.senders ==> s'.senders[t].pc == s.senders[t].pc)
            && (!o.LoadStateStep? ==> s'.aw == s.aw)
  {
    match o
    case NotifyStep => case CloseNotifyStep => case UnparkStep => case CloseDrainStep => case BeginReceive(_) =>
    case PopStep => case DecStep => case LoadStateStep => case Registered => case BeginClose => case CloseSetStep =>
  }

  lemma AwKeepsUsers(s: State, a: A.Step)
    requires Enabled(s, AwStep(a)) && UsersOk(s)
    ensures UsersOk(DoAwStep(s, a))
  {
    assert InWakerOk(s.aw.pc[a.t], a.t, s.senders, s.rx);
    forall u | u in DoAwStep(s, a).aw.pc ensures InWakerOk(DoAwStep(s, a).aw.pc[u], u, s.senders, s.rx) {
      if u in s.aw.pc { assert InWakerOk(s.aw.pc[u], u, s.senders, s.rx); }
    }
  }

  // ----- the registration -----

  /** The receiver is the only registrar, so its `register` is never dropped. */
  lemma RegisterTakes(s: State, w: Waker)
    requires A.Inv(s.aw) && UsersOk(s) && RX !in s.aw.pc
    ensures var aw := A.DoRegisterCas(s.aw, RX, w); aw.last.Some? && aw.last.value.w == w && aw.last.value.tid == RX
  {
    if s.aw.bits != A.WAITING {
      var t :| t in s.aw.pc && A.Holds(s.aw.pc[t]);
      assert A.Consistent(s.aw, t);
      assert InWakerOk(s.aw.pc[t], t, s.senders, s.rx);
    }
  }

  lemma KeepsRegistration(s: State, e: Step)
    requires Enabled(s, e) && WakesOk(s)
    ensures RegistrationOk(Apply(s, e))
  {
    match e
    case Sending(t, o) =>
      SendTouchesOne(s, t, o);
      if !o.SignalStep? { SendLeavesWaker(s, t, o); } else { A.LastStays(s.aw, A.WakeFetchOr(t)); }
    case Receiving(o) => ReceiveKeepsRegistration(s, o);
    case AwStep(a) => A.LastStays(s.aw, a);
  }

  lemma LoadKeepsRegistration(s: State)
    requires CanReceive(s, LoadStateStep) && A.Inv(s.aw) && UsersOk(s) && RegistrationOk(s)
    ensures RegistrationOk(DoLoadState(s))
  {
    if s.rx.mode.First? { RegisterTakes(s, s.rx.mode.w); }
  }

  lemma RegisteredStays(s: State, o: ReceiverOp)
    requires CanReceive(s, o) && !o.LoadStateStep?
    ensures RegisteredAs(Receive(s, o).rx).Some? ==> RegisteredAs(Receive(s, o).rx) == RegisteredAs(s.rx)
  {
    match o
    case NotifyStep => case CloseNotifyStep => case UnparkStep => case CloseDrainStep => case BeginReceive(_) =>
    case PopStep => case DecStep => case Registered => case BeginClose => case CloseSetStep =>
  }

  lemma ReceiveKeepsRegistration(s: State, o: ReceiverOp)
    requires CanReceive(s, o) && A.Inv(s.aw) && UsersOk(s) && RegistrationOk(s)
    ensures RegistrationOk(Receive(s, o))
  {
    if o.LoadStateStep? {
      LoadKeepsRegistration(s);
    } else {
      RegisteredStays(s, o);
      ReceiveLeavesSenders(s, o);
    }
  }

  lemma KeepsWaker(s: State, e: Step)
    requires Enabled(s, e) && A.Inv(s.aw)
    ensures A.Inv(Apply(s, e).aw)
  {
    match e
    case Sending(t, o) => if o.SignalStep? { A.KeepsInv(s.aw, A.WakeFetchOr(t)); } else { SendLeavesWaker(s, t, o); }
    case Receiving(o) =>
      if o.LoadStateStep? {
        if s.rx.mode.First? { A.KeepsInv(s.aw, A.RegisterCas(RX, s.rx.mode.w)); }
      } else {
        ReceiveLeavesSenders(s, o);
      }
    case AwStep(a) => A.KeepsInv(s.aw, a);
  }

  // ----- staying alert -----

  /** While the receiver relies on being woken, it is not inside `register`. */
  lemma RelyingReturned(s: State)
    requires WakesOk(s) && Relies(s.rx)
    ensures s.aw.last.Some? && A.Returned(s.aw, s.aw.last.value)
  {
    assert RX in s.aw.pc ==> InWakerOk(s.aw.pc[RX], RX, s.senders, s.rx);
  }

  lemma OthersSignal(s: State, t: Sid, o: SenderOp)
    requires CanSend(s, t, o) && SomeoneWillSignal(s.senders)
    requires !o.Clone? && WillSignal(s.senders[t].pc) ==> WillSignal(Send(s, t, o).senders[t].pc)
    ensures SomeoneWillSignal(Send(s, t, o).senders)
  {
    SendTouchesOne(s, t, o);
    var u :| u in s.senders && WillSignal(s.senders[u].pc);
    assert u in Send(s, t, o).senders;
  }

  lemma SignalingStays(s: State, t: Sid, o: SenderOp)
    requires CanSend(s, t, o) && !o.SignalStep? && !o.Clone? && WillSignal(s.senders[t].pc)
    ensures WillSignal(Send(s, t, o).senders[t].pc)
  {
    match o
    case Push2Step =>
    case _ => assert false;
  }

  lemma SendStaysAlert(s: State, t: Sid, o: SenderOp)
    requires CanSend(s, t, o) && WakesOk(s) && Relies(s.rx) && Alert(s)
    ensures Alert(Send(s, t, o))
  {
    RelyingReturned(s);
    if o.SignalStep? {
      A.WakeCovers(s.aw, t);
      A.LastStays(s.aw, A.WakeFetchOr(t));
    } else {
      SendLeavesWaker(s, t, o);
      if SomeoneWillSignal(s.senders) {
        if !o.Clone? && WillSignal(s.senders[t].pc) { SignalingStays(s, t, o); }
        OthersSignal(s, t, o);
      }
    }
  }

  lemma AwStaysAlert(s: State, a: A.Step)
    requires Enabled(s, AwStep(a)) && WakesOk(s) && Relies(s.rx) && Alert(s)
    ensures Alert(DoAwStep(s, a))
  {
    RelyingReturned(s);
    A.LastStays(s.aw, a);
    if A.Covered(s.aw, s.aw.last.value) { A.KeepsCovered(s.aw, a, s.aw.last.value); }
  }

  /** News made by a sender comes with its signal. */
  lemma NewsComesWithSignal(s: State, t: Sid, o: SenderOp)
    requires CanSend(s, t, o) && !News(s) && News(Send(s, t, o))
    ensures SomeoneWillSignal(Send(s, t, o).senders)
  {
    SendTouchesOne(s, t, o);
    NewsMaker(s, t, o);
    var s' := Send(s, t, o);
    assert t in s'.senders && WillSignal(s'.senders[t].pc);
  }

  lemma NewsMaker(s: State, t: Sid, o: SenderOp)
    requires CanSend(s, t, o) && !News(s) && News(Send(s, t, o))
    ensures WillSignal(Send(s, t, o).senders[t].pc)
  {
    match o
    case Push1Step => case MarkClosed =>
    case CloseChannel => case TrySend(m) => case CheckParkedStep => case Push2Step =>
    case SignalStep => case SenderDone => case PollReady(w) => case PollTaskStep => case Drop => case Clone =>
    case Park1Step => case Park2Step => case Park3Step => case Park4Step => case IncStep =>
  }

  lemma KeepsAlert(s: State, e: Step)
    requires Enabled(s, e) && WakesOk(s)
    ensures AlertOk(Apply(s, e))
  {
    match e
    case Sending(t, o) =>
      SendTouchesOne(s, t, o);
      if Relies(s.rx) && News(Send(s, t, o)) {
        if News(s) { SendStaysAlert(s, t, o); } else { NewsComesWithSignal(s, t, o); }
      }
    case Receiving(o) => ReceiveKeepsAlert(s, o);
    case AwStep(a) => if Relies(s.rx) && News(s) { AwStaysAlert(s, a); }
  }

  lemma ReceiveKeepsAlert(s: State, o: ReceiverOp)
    requires CanReceive(s, o) && WakesOk(s)
    ensures AlertOk(Receive(s, o))
  {
    match o
    case PopStep => case LoadStateStep =>
    case NotifyStep => case CloseNotifyStep => case UnparkStep => case CloseDrainStep => case BeginReceive(_) =>
    case DecStep => case Registered => case BeginClose => case CloseSetStep =>
  }

  lemma KeepsWakes(s: State, e: Step)
    requires Enabled(s, e) && WakesOk(s) && ParkingOk(s)
    ensures WakesOk(Apply(s, e))
  {
    KeepsWaker(s, e);
    KeepsRegistration(s, e);
    KeepsAlert(s, e);
    match e
    case Sending(t, o) => SendKeepsUsers(s, t, o);
    case Receiving(o) => ReceiveKeepsUsers(s, o);
    case AwStep(a) => AwKeepsUsers(s, a);
  }

  ghost predicate AllOk(s: State) { G.Inv(s) && WakesOk(s) }

  lemma InitAll(s: State)
    requires IsInit(s)
    ensures AllOk(s)
  {
    var buffer: nat, t: Sid :| t != RX && s == Init(buffer, t);
    G.InitInv(buffer, t);
  }

  lemma KeepsAll(s: State, e: Step, s': State)
    requires AllOk(s) && Next(s, e, s')
    ensures AllOk(s')
  {
    G.KeepsInv(s, e);
    KeepsWakes(s, e);
  }

  lemma WakesInEveryState(r: Run<State, Step>, k: nat)
    requires IsRun(IsInit, Next, r) && k < |r.states|
    ensures G.Inv(r.states[k]) && WakesOk(r.states[k])
  {
    forall s | IsInit(s) ensures AllOk(s) { InitAll(s); }
    forall s, e, s' | AllOk(s) && Next(s, e, s') ensures AllOk(s') { KeepsAll(s, e, s'); }
    Invariance(IsInit, Next, AllOk, r, k);
  }

  lemma WakerIsSound(s: State)
    requires Reachable(s)
    ensures A.Inv(s.aw)
  {
    var r: Run<State, Step> :| IsRun(IsInit, Next, r) && r.states[|r.steps|] == s;
    WakesInEveryState(r, |r.steps|);
  }

  /** `poll_next` has returned Pending and has not been called again.  If a message has been
      pushed, or the channel was closed with nothing left in it, the waker of that call has
      been woken since it was registered, or a sender or a wake in progress is about to. */
  lemma SleepingReceiverIsWoken(r: Run<State, Step>, k: nat, w: Waker)
    requires IsRun(IsInit, Next, r) && k < |r.states|
    requires r.states[k].rx == Idle(Parked(w)) && News(r.states[k])
    ensures var s := r.states[k]; s.aw.last.Some? && s.aw.last.value.w == w && Alert(s)
  {
    WakesInEveryState(r, k);
  }

  /** In particular, with no sender inside an operation: it has been woken, or the queue is
      empty, the channel open, and some sender alive. */
  lemma NobodySleepsOnNews(r: Run<State, Step>, k: nat, w: Waker)
    requires IsRun(IsInit, Next, r) && k < |r.states|
    requires r.states[k].rx == Idle(Parked(w))
    requires forall t :: t in r.states[k].senders ==> r.states[k].senders[t].pc == Quiet
    ensures var s := r.states[k];
            || (s.aw.last.Some? && WokenSince(s.aw.log, s.aw.last.value.mark, w))
            || (s.msgs == [] && s.num == 0 && s.open && s.numSenders >= 1)
  {
    WakesInEveryState(r, k);
    var s := r.states[k];
    assert forall t :: t in s.aw.pc ==> InWakerOk(s.aw.pc[t], t, s.senders, s.rx);
    assert InFlight(s.senders) == {};
  }
}
