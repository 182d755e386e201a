/** `FuturesUnordered::poll_next` never sleeps on a woken child (mod.rs, task.rs). */
module FuturesUnorderedWakeups {
  import opened Runs
  import opened Chains
  import opened FuturesUnordereds
  import G = FuturesUnorderedGuarantees
  import Q = ReadyToRunQueues
  import A = AtomicWakers

  /** A thread inside `wake_by_ref` that has set the flag first and has yet to call the
      parent's waker. */
  predicate WillWake(p: ThreadPc) {
    p.ToWake? || ((p.Claimed? || p.Cleared? || p.Linking?) && !p.push)
  }

  ghost predicate SomeoneWillWake(threads: map<Tid, ThreadPc>) {
    exists t :: t in threads && WillWake(threads[t])
  }

  /** The waker of the current poll is the one last registered. */
  ghost predicate Registered(s: State) {
    s.aw.last.Some? && s.aw.last.value.w == s.w && s.aw.last.value.tid == OWNER
  }

  /** The parent has been woken since this poll registered, or is about to be. */
  ghost predicate Alert(s: State) {
    (s.aw.last.Some? && A.Covered(s.aw, s.aw.last.value)) || SomeoneWillWake(s.threads)
  }

  /** The children of the set that were there when the last poll returned. */
  function Old(s: State): set<Node> { set n | n in s.tasks && s.tasks[n].ref == Listed && n !in s.pushed }

  ghost predicate StaleOk(s: State) {
    forall n :: n in s.stale ==> n in s.tasks && (s.tasks[n].queued || s.owner == Reset(n))
  }

  ghost predicate AlertOk(s: State) {
    s.owner == Idle(WasPending) ==> Alert(s) || forall n :: n in Old(s) ==> !s.tasks[n].queued
  }

  ghost predicate WakesOk(s: State) {
    && StaleOk(s)
    && (G.InPollNext(s.owner) || s.owner == Idle(WasPending) ==> Registered(s))
    && AlertOk(s)
  }

  /** Only the owner resets a flag, and only just before it polls the task. */
  lemma FlagStays(s: State, e: Step, n: Node)
    requires Enabled(s, e) && !e.ResetQueued? && n in s.tasks && s.tasks[n].queued
    ensures n in Apply(s, e).tasks && Apply(s, e).tasks[n].queued
  {
    match e
    case BeginPoll(_) => case EnterLoop => case Consume(_) => case Inspect => case StartChild =>
    case ChildReturns(_) => case Relink => case SelfWake => case ReleaseSwap => case ReleaseDrop =>
    case BeginIter => case IterNext(_) => case BeginDrop => case DropNext(_) => case DropOwnerRef => case Drain(_) =>
    case Push(_, _) => case Upgrade(_, _) => case SetWoken(_) => case SwapQueued(_) => case ClearNext(_) =>
    case SwapHead(_) => case LinkPrev(_) => case CallWake(_) => case AwStep(_) => case Leave(_) =>
  }

  lemma KeepsStale(s: State, e: Step)
    requires Enabled(s, e) && StaleOk(s)
    ensures StaleOk(Apply(s, e))
  {
    var s' := Apply(s, e);
    forall n | n in s'.stale ensures n in s'.tasks && (s'.tasks[n].queued || s'.owner == Reset(n)) {
      if n in s.stale && s.tasks[n].queued && !e.ResetQueued? { FlagStays(s, e, n); }
    }
  }

  lemma BeginPollRegisters(s: State, w: Waker)
    requires Structure(s) && Enabled(s, BeginPoll(w))
    ensures Registered(DoBeginPoll(s, w)) && DoBeginPoll(s, w).aw.last.value.mark == |s.aw.log|
  {
    if s.aw.bits != A.WAITING {
      var t :| t in s.aw.pc && A.Holds(s.aw.pc[t]);
      assert A.Consistent(s.aw, t);
      assert !A.InRegister(s.aw.pc[t]);
    }
  }

  /** Only `poll_next` registers. */
  lemma RegistrationStays(s: State, e: Step)
    requires Enabled(s, e) && !e.BeginPoll?
    ensures var s' := Apply(s, e);
            && s'.aw.last == s.aw.last && s'.w == s.w
            && (G.InPollNext(s'.owner) ==> G.InPollNext(s.owner))
            && (s'.owner == Idle(WasPending) ==> G.InPollNext(s.owner) || s.owner == s'.owner)
  {
    match e
    case AwStep(a) => A.LastStays(s.aw, a);
    case CallWake(t) => A.LastStays(s.aw, A.WakeFetchOr(t));
    case EnterLoop => case Consume(_) => case Inspect => case ResetQueued => case StartChild =>
    case ChildReturns(_) => case Relink => case SelfWake => case ReleaseSwap => case ReleaseDrop =>
    case BeginIter => case IterNext(_) => case BeginDrop => case DropNext(_) => case DropOwnerRef => case Drain(_) =>
    case Push(_, _) => case Upgrade(_, _) => case SetWoken(_) => case SwapQueued(_) => case ClearNext(_) =>
    case SwapHead(_) => case LinkPrev(_) => case Leave(_) =>
  }

  lemma KeepsRegistered(s: State, e: Step)
    requires Structure(s) && Enabled(s, e)
    requires G.InPollNext(s.owner) || s.owner == Idle(WasPending) ==> Registered(s)
    ensures var s' := Apply(s, e); G.InPollNext(s'.owner) || s'.owner == Idle(WasPending) ==> Registered(s')
  {
    if e.BeginPoll? {
      BeginPollRegisters(s, e.w);
    } else {
      RegistrationStays(s, e);
    }
  }

  lemma WillWakeMoves(threads: map<Tid, ThreadPc>, t: Tid, p: ThreadPc)
    requires SomeoneWillWake(threads)
    requires t in threads && WillWake(threads[t]) ==> WillWake(p)
    ensures SomeoneWillWake(threads[t := p])
  {
    var u :| u in threads && WillWake(threads[u]);
    assert u in threads[t := p];
  }

  lemma WillWakeLeaves(threads: map<Tid, ThreadPc>, t: Tid)
    requires SomeoneWillWake(threads)
    requires t in threads && !WillWake(threads[t])
    ensures SomeoneWillWake(threads - {t})
  {
    var u :| u in threads && WillWake(threads[u]);
    assert u in threads - {t};
  }

  /** While the owner sleeps nobody is inside `register`. */
  lemma IdleReturned(s: State)
    requires Structure(s) && s.owner.Idle? && s.aw.last.Some?
    ensures A.Returned(s.aw, s.aw.last.value)
  {
    var g := s.aw.last.value;
    if g.tid in s.aw.pc { assert g.tid != OWNER; }
  }

  /** A thread that will wake the parent goes on until it does. */
  lemma WakersGoOn(s: State, e: Step)
    requires Enabled(s, e) && s.owner == Idle(WasPending) && Apply(s, e).owner == s.owner
    requires SomeoneWillWake(s.threads) && !e.AwStep? && !e.CallWake?
    ensures SomeoneWillWake(Apply(s, e).threads)
  {
    var s' := Apply(s, e);
    match e
    case Leave(t) => WillWakeLeaves(s.threads, t);
    case LinkPrev(t) => if s.threads[t].push { WillWakeLeaves(s.threads, t); } else { WillWakeMoves(s.threads, t, ToWake); }
    case Push(t, n) => WillWakeMoves(s.threads, t, Claimed(n, true));
    case Upgrade(t, n) => WillWakeMoves(s.threads, t, Upgraded(n));
    case SetWoken(t) => WillWakeMoves(s.threads, t, s'.threads[t]);
    case SwapQueued(t) => WillWakeMoves(s.threads, t, s'.threads[t]);
    case ClearNext(t) => WillWakeMoves(s.threads, t, s'.threads[t]);
    case SwapHead(t) => WillWakeMoves(s.threads, t, s'.threads[t]);
    case _ =>
  }

  /** The parent's being alerted is not undone while the owner sleeps. */
  lemma AlertStays(s: State, e: Step)
    requires Structure(s) && Enabled(s, e) && s.owner == Idle(WasPending) && Apply(s, e).owner == s.owner
    requires Registered(s) && Alert(s)
    ensures Alert(Apply(s, e))
  {
    IdleReturned(s);
    var g := s.aw.last.value;
    if e.AwStep? {
      A.LastStays(s.aw, e.a);
      if A.Covered(s.aw, g) { A.KeepsCovered(s.aw, e.a, g); }
    } else if e.CallWake? {
      A.LastStays(s.aw, A.WakeFetchOr(e.t));
      A.WakeCovers(s.aw, e.t);
    } else {
      WakerUntouched(s, e);
      if SomeoneWillWake(s.threads) { WakersGoOn(s, e); }
    }
  }

  lemma WakerUntouched(s: State, e: Step)
    requires Enabled(s, e) && s.owner == Idle(WasPending) && Apply(s, e).owner == s.owner && !e.AwStep? && !e.CallWake?
    ensures Apply(s, e).aw == s.aw
  {
  }

  /** While the owner sleeps, a child's flag is set only by a thread that will wake the owner. */
  lemma FlagMeansAlert(s: State, e: Step)
    requires Enabled(s, e) && s.owner == Idle(WasPending) && Apply(s, e).owner == s.owner
    requires forall n :: n in Old(s) ==> !s.tasks[n].queued
    ensures Alert(Apply(s, e)) || forall n :: n in Old(Apply(s, e)) ==> !Apply(s, e).tasks[n].queued
  {
    var s' := Apply(s, e);
    if e.SwapQueued? {
      if !s.tasks[s.threads[e.t].node].queued { assert e.t in s'.threads && WillWake(s'.threads[e.t]); }
    }
  }

  /** A child whose flag is set is in the chain, or a thread has claimed it. */
  lemma FlaggedIsSomewhere(s: State, n: Node)
    requires Structure(s) && n in All(s) && s.tasks[n].queued && NodeOf(s.owner) == None
    ensures n in s.q.order || exists t :: t in s.threads && ClaimOf(s.threads[t]) == Some(n)
  {
    assert TaskOk(s.tasks[n], n, s.owner);
    assert TokenOk(s.tasks[n], n, s.threads, s.q.order);
  }

  /** A thread that has claimed a task, or is about to link it, while the owner is inside
      `poll_next`, is a waker. */
  lemma WorkingMeansWaker(s: State, t: Tid)
    requires Structure(s) && s.owner == Dequeuing && t in s.threads
    requires ClaimOf(s.threads[t]).Some? || t in s.q.enq
    ensures WillWake(s.threads[t])
  {
    assert ThreadOk(s.threads[t], t, s.tasks, s.q.enq, s.owner);
  }

  /** `poll_next` returns Pending because the queue looked empty: any child whose flag is set is
      with a thread that will wake the parent, or stuck behind such a thread. */
  lemma EmptyMeansAlert(s: State, e: Q.Step)
    requires Dequeues(s, e) && Structure(s) && Q.Apply(s.q, e).deq == Q.Rest(Q.Empty)
    requires exists n :: n in All(s) && s.tasks[n].queued
    ensures SomeoneWillWake(DoConsume(s, e).threads)
  {
    var n :| n in All(s) && s.tasks[n].queued;
    FlaggedIsSomewhere(s, n);
    if n in s.q.order {
      EmptyHasEnqueuer(s.q, e, n);
      var t :| t in s.q.enq;
      WorkingMeansWaker(s, t);
    } else {
      var t :| t in s.threads && ClaimOf(s.threads[t]) == Some(n);
      WorkingMeansWaker(s, t);
    }
  }

  /** The queue looked empty with a node in it: some thread is inside `enqueue`. */
  lemma EmptyHasEnqueuer(q: Q.State, e: Q.Step, n: Node)
    requires Q.Inv(q) && Q.IsConsumerStep(e) && Q.Enabled(q, e) && Q.Apply(q, e).deq == Q.Rest(Q.Empty)
    requires n in q.order && n != Q.STUB
    ensures exists t :: t in q.enq
  {
    assert e == Q.FirstLoadStep;
    Q.EmptyMeansEmpty(q);
    Q.NonStubMember(q.order, n);
  }

  /** After `cx.waker().wake_by_ref()` the parent has been woken. */
  lemma SelfWakeAlerts(s: State)
    requires Structure(s) && Registered(s)
    ensures Alert(DoSelfWake(s))
  {
    A.KeepsDirectWake(s.aw, s.w);
  }

  /** `poll_next` returns Pending because `dequeue` found nothing. */
  lemma EndsAlert(s: State, e: Q.Step)
    requires Dequeues(s, e) && Structure(s) && DoConsume(s, e).owner == Idle(WasPending)
    ensures AlertOk(DoConsume(s, e))
  {
    var s' := DoConsume(s, e);
    assert s'.tasks == s.tasks && s'.pushed == s.pushed;
    if n :| n in Old(s') && s'.tasks[n].queued {
      assert n in All(s) && s.tasks[n].queued;
      EmptyMeansAlert(s, e);
    }
  }

  lemma SleepingStaysAlert(s: State, e: Step)
    requires Structure(s) && Enabled(s, e) && s.owner == Idle(WasPending) && Apply(s, e).owner == s.owner
    requires Registered(s) && AlertOk(s)
    ensures AlertOk(Apply(s, e))
  {
    if Alert(s) { AlertStays(s, e); } else { FlagMeansAlert(s, e); }
  }

  /** The steps with which `poll_next` returns Pending. */
  lemma PendingFrom(s: State, e: Step)
    requires Enabled(s, e) && Apply(s, e).owner == Idle(WasPending) && s.owner != Idle(WasPending)
    ensures e.SelfWake? || (e.Consume? && s.owner == Dequeuing)
    ensures G.InPollNext(s.owner)
  {
    match e
    case SelfWake => case Consume(_) => case ReleaseDrop =>
    case _ =>
  }

  lemma KeepsAlert(s: State, e: Step)
    requires Structure(s) && Enabled(s, e) && WakesOk(s)
    ensures AlertOk(Apply(s, e))
  {
    if Apply(s, e).owner == Idle(WasPending) {
      if s.owner == Idle(WasPending) {
        SleepingStaysAlert(s, e);
      } else {
        PendingFrom(s, e);
        if e.SelfWake? { SelfWakeAlerts(s); } else { EndsAlert(s, e.e); }
      }
    }
  }

  lemma WakesInEveryState(r: Run<State, Step>, k: nat)
    requires IsRun(IsInit, Next, r) && k < |r.states|
    ensures Structure(r.states[k]) && WakesOk(r.states[k])
  {
    Q.InitInv();
    var inv := (s: State) => Structure(s) && WakesOk(s);
    forall s, e, s' | inv(s) && Next(s, e, s') ensures inv(s') {
      KeepsStructure(s, e);
      KeepsStale(s, e);
      KeepsRegistered(s, e);
      KeepsAlert(s, e);
    }
    Invariance(IsInit, Next, inv, r, k);
  }

  /** Once `poll_next` has returned Pending, and for as long as it has not been called again:
      that poll's waker is the one registered, and the parent task has been woken since, or is
      about to be, or no child of the set that was not pushed since has its flag set: each was
      polled at least once, and again after the last wake-up that set or found its flag. */
  lemma NeverSleepsOnWokenChild(r: Run<State, Step>, k: nat)
    requires IsRun(IsInit, Next, r) && k < |r.states| && r.states[k].owner == Idle(WasPending)
    ensures Registered(r.states[k])
    ensures || Alert(r.states[k])
            || forall n :: n in Old(r.states[k]) ==> !r.states[k].tasks[n].queued && n !in r.states[k].stale
  {
    WakesInEveryState(r, k);
  }

  /** In particular, when no call of another thread is in progress: the parent's waker has been
      called since that poll registered it, or no such child has an unanswered wake-up. */
  lemma NobodyLeftBehind(r: Run<State, Step>, k: nat)
    requires IsRun(IsInit, Next, r) && k < |r.states| && r.states[k].owner == Idle(WasPending)
    requires r.states[k].threads == map[]
    ensures var s := r.states[k];
            && Registered(s)
            && (|| WokenSince(s.aw.log, s.aw.last.value.mark, s.w)
                || forall n :: n in Old(s) ==> !s.tasks[n].queued && n !in s.stale)
  {
    WakesInEveryState(r, k);
    var s := r.states[k];
    assert forall t :: t in s.aw.pc ==> t != OWNER && t in s.threads;
  }

  /** A child that is still in the queue while the owner sleeps un-woken has a thread on its
      way to wake the owner. */
  lemma QueuedChildHasWaker(r: Run<State, Step>, k: nat, n: Node)
    requires IsRun(IsInit, Next, r) && k < |r.states| && r.states[k].owner == Idle(WasPending)
    requires n in Old(r.states[k]) && n in r.states[k].q.order
    ensures Alert(r.states[k])
  {
    WakesInEveryState(r, k);
    var s := r.states[k];
    assert TokenOk(s.tasks[n], n, s.threads, s.q.order) && TaskOk(s.tasks[n], n, s.owner);
  }

  // ----- whose wake-up it is -----

  /** Step n is the last call of `poll_next` before state k: with the waker of state k's
      registration, which counts the wake-ups from then on. */
  ghost predicate LastCall(r: Run<State, Step>, n: int, k: nat)
    requires |r.states| == |r.steps| + 1 && k < |r.states|
  {
    && 0 <= n < k && r.steps[n] == BeginPoll(r.states[k].w)
    && r.states[k].aw.last.Some? && r.states[k].aw.last.value.mark == |r.states[n].aw.log|
    && forall j :: n < j < k ==> !r.steps[j].BeginPoll?
  }

  /** The waker of the current or last poll is that of the last call of `poll_next`. */
  lemma PolledWith(r: Run<State, Step>, k: nat)
    requires IsRun(IsInit, Next, r) && k < |r.states| && r.states[k].owner == Idle(WasPending)
    ensures exists n :: LastCall(r, n, k)
  {
    WakesInEveryState(r, k);
    var n := LastPoll(r, k);
  }

  lemma PollBegun(s: State, w: Waker)
    requires Structure(s) && Enabled(s, BeginPoll(w))
    ensures var s' := Apply(s, BeginPoll(w));
            s'.w == w && s'.aw.last.Some? && s'.aw.last.value.mark == |s.aw.log|
  {
    BeginPollRegisters(s, w);
  }

  lemma {:induction false} LastPoll(r: Run<State, Step>, k: nat) returns (n: nat)
    requires IsRun(IsInit, Next, r) && k < |r.states| && r.states[k].aw.last.Some?
    ensures LastCall(r, n, k)
  {
    assert k > 0;
    assert Next(r.states[k - 1], r.steps[k - 1], r.states[k - 1 + 1]);
    if r.steps[k - 1].BeginPoll? {
      G.StructureInEveryState(r, k - 1);
      PollBegun(r.states[k - 1], r.steps[k - 1].w);
      n := k - 1;
    } else {
      RegistrationStays(r.states[k - 1], r.steps[k - 1]);
      n := LastPoll(r, k - 1);
    }
  }

  /** A thread that has upgraded its reference to wake n, up to the swap of n's flag. */
  predicate Waking(threads: map<Tid, ThreadPc>, t: Tid, n: Node) {
    t in threads && (threads[t] == Upgraded(n) || threads[t] == WokenSet(n))
  }

  /** The steps of `wake_by_ref` up to that swap. */
  predicate WakeStep(e: Step, t: Tid) { (e.Upgrade? || e.SwapQueued?) && e.t == t }

  lemma WakingStays(s: State, e: Step, s': State, t: Tid, n: Node)
    requires Next(s, e, s') && Waking(s.threads, t, n) && !WakeStep(e, t)
    ensures Waking(s'.threads, t, n)
  {
    match e
    case BeginPoll(_) => case EnterLoop => case Consume(_) => case Inspect => case ResetQueued => case StartChild =>
    case ChildReturns(_) => case Relink => case SelfWake => case ReleaseSwap => case ReleaseDrop =>
    case BeginIter => case IterNext(_) => case BeginDrop => case DropNext(_) => case DropOwnerRef => case Drain(_) =>
    case Push(_, _) => case Upgrade(_, _) => case SetWoken(_) => case SwapQueued(_) => case ClearNext(_) =>
    case SwapHead(_) => case LinkPrev(_) => case CallWake(_) => case AwStep(_) => case Leave(_) =>
  }

  /** The wake-up of n by t, begun in step i, reaches n in step j: from then on n has a wake-up
      that it was not polled after. */
  lemma WakeReaches(r: Run<State, Step>, i: nat, j: nat, t: Tid, n: Node)
    requires IsRun(IsInit, Next, r) && i < j < |r.steps|
    requires r.steps[i] == Upgrade(t, n) && r.steps[j] == SwapQueued(t)
    requires forall k :: i < k < j ==> !WakeStep(r.steps[k], t)
    ensures n in r.states[j + 1].stale && n in r.states[j + 1].tasks && r.states[j + 1].tasks[n].queued
  {
    assert Next(r.states[i], r.steps[i], r.states[i + 1]) && Next(r.states[j], r.steps[j], r.states[j + 1]);
    var keep := (s: State) => Waking(s.threads, t, n);
    forall k | i + 1 <= k < j && keep(r.states[k]) ensures keep(r.states[k + 1]) {
      assert Next(r.states[k], r.steps[k], r.states[k + 1]);
      WakingStays(r.states[k], r.steps[k], r.states[k + 1], t, n);
    }
    Persistence(keep, r, i + 1, j);
  }

  predicate StartsPoll(s: State, e: Step, n: Node) { e.StartChild? && s.owner == Reset(n) }

  lemma StaleStays(s: State, e: Step, s': State, n: Node)
    requires Next(s, e, s') && n in s.stale && !StartsPoll(s, e, n)
    ensures n in s'.stale
  {
    match e
    case BeginPoll(_) => case EnterLoop => case Consume(_) => case Inspect => case ResetQueued => case StartChild =>
    case ChildReturns(_) => case Relink => case SelfWake => case ReleaseSwap => case ReleaseDrop =>
    case BeginIter => case IterNext(_) => case BeginDrop => case DropNext(_) => case DropOwnerRef => case Drain(_) =>
    case Push(_, _) => case Upgrade(_, _) => case SetWoken(_) => case SwapQueued(_) => case ClearNext(_) =>
    case SwapHead(_) => case LinkPrev(_) => case CallWake(_) => case AwStep(_) => case Leave(_) =>
  }

  /** n was pushed since `poll_next` was last called, and that by a push of n. */
  lemma PushedSince(r: Run<State, Step>, k: nat, n: Node)
    requires IsRun(IsInit, Next, r) && k < |r.states| && n in r.states[k].pushed
    ensures exists i, t :: 0 <= i < k && r.steps[i] == Push(t, n) && forall j :: i < j < k ==> !r.steps[j].BeginPoll?
  {
    var i := Origin((s: State) => n in s.pushed, r, 0, k);
    assert Next(r.states[i], r.steps[i], r.states[i + 1]);
    PushedByPush(r.states[i], r.steps[i], r.states[i + 1], n);
    forall j | i < j < k ensures !r.steps[j].BeginPoll? {
      assert Next(r.states[j], r.steps[j], r.states[j + 1]) && n in r.states[j + 1].pushed;
    }
    assert r.steps[i] == Push(r.steps[i].t, n);
  }

  lemma PushedByPush(s: State, e: Step, s': State, n: Node)
    requires Next(s, e, s') && n !in s.pushed && n in s'.pushed
    ensures e.Push? && e.n == n
  {
    match e
    case BeginPoll(_) => case EnterLoop => case Consume(_) => case Inspect => case ResetQueued => case StartChild =>
    case ChildReturns(_) => case Relink => case SelfWake => case ReleaseSwap => case ReleaseDrop =>
    case BeginIter => case IterNext(_) => case BeginDrop => case DropNext(_) => case DropOwnerRef => case Drain(_) =>
    case Push(_, _) => case Upgrade(_, _) => case SetWoken(_) => case SwapQueued(_) => case ClearNext(_) =>
    case SwapHead(_) => case LinkPrev(_) => case CallWake(_) => case AwStep(_) => case Leave(_) =>
  }

  /** All together, from one wake-up to the other: t wakes child n by `wake_by_ref`, in steps i
      to j; n is not polled after that; `poll_next`, called with waker w in step m, has returned
      Pending.  Then, unless n was pushed after that call, w has been called since it began,
      or a thread is about to call it. */
  lemma WokenChildWakesParent(r: Run<State, Step>, i: nat, j: nat, k: nat, t: Tid, n: Node)
    requires IsRun(IsInit, Next, r) && i < j < k < |r.states|
    requires r.steps[i] == Upgrade(t, n) && r.steps[j] == SwapQueued(t)
    requires forall l :: i < l < j ==> !WakeStep(r.steps[l], t)
    requires forall l :: j < l < k ==> !StartsPoll(r.states[l], r.steps[l], n)
    requires r.states[k].owner == Idle(WasPending) && n in All(r.states[k]) && n !in r.states[k].pushed
    ensures exists m :: LastCall(r, m, k)
    ensures Registered(r.states[k]) && Alert(r.states[k])
  {
    WakeReaches(r, i, j, t, n);
    var keep := (s: State) => n in s.stale;
    forall l | j + 1 <= l < k && keep(r.states[l]) ensures keep(r.states[l + 1]) {
      assert Next(r.states[l], r.steps[l], r.states[l + 1]);
      StaleStays(r.states[l], r.steps[l], r.states[l + 1], n);
    }
    Persistence(keep, r, j + 1, k);
    PolledWith(r, k);
    NeverSleepsOnWokenChild(r, k);
    assert n in Old(r.states[k]);
  }
}
