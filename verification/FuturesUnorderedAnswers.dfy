/** What the answers of `FuturesUnordered::poll_next` and of its children mean, and that the set
    and its queue are taken down to the end. */
module FuturesUnorderedAnswers {
  import opened Runs
  import opened Chains
  import opened FuturesUnordereds
  import G = FuturesUnorderedGuarantees
  import Q = ReadyToRunQueues

  /** A step inside a push or a wake. */
  predicate OfThread(e: Step) {
    || e.Push? || e.Upgrade? || e.SetWoken? || e.SwapQueued? || e.ClearNext? || e.SwapHead? || e.LinkPrev? || e.CallWake?
    || e.AwStep? || e.Leave?
  }

  lemma ThreadsLeaveOwner(s: State, e: Step, s': State)
    requires Next(s, e, s') && OfThread(e)
    ensures s'.owner == s.owner || (e.Leave? && s.owner == Gone && s'.owner == Draining)
    ensures s'.len == s.len && s'.polled == s.polled && s'.yielded == s.yielded && s'.q.deq == s.q.deq
  {
    match e
    case Push(_, _) => case Upgrade(_, _) => case SetWoken(_) => case SwapQueued(_) => case ClearNext(_) =>
    case SwapHead(_) => case LinkPrev(_) => case CallWake(_) => case AwStep(_) => case Leave(_) =>
  }

  lemma ThreadsLeaveTask(s: State, e: Step, s': State, n: Node)
    requires Next(s, e, s') && OfThread(e)
    ensures n in s.tasks ==> n in s'.tasks && s'.tasks[n].future == s.tasks[n].future && s'.tasks[n].ref == s.tasks[n].ref
    ensures n in s'.tasks && n !in s.tasks ==> s'.tasks[n].future && !s'.tasks[n].woken
    ensures n in s.tasks && s.tasks[n].woken ==> s'.tasks[n].woken
    ensures n in s.tasks && !s.tasks[n].woken ==> (s'.tasks[n].woken <==> SetsWoken(s, e, n))
  {
    match e
    case Push(_, _) => case Upgrade(_, _) => case SetWoken(_) => case SwapQueued(_) => case ClearNext(_) =>
    case SwapHead(_) => case LinkPrev(_) => case CallWake(_) => case AwStep(_) => case Leave(_) =>
  }

  // ----- None and Pending -----

  /** `dequeue` found nothing: `Ready(None)` if no child is left in the set, else Pending. */
  lemma EmptyAnswer(s: State, e: Q.Step, s': State)
    requires Next(s, Consume(e), s')
    ensures s'.owner == Idle(WasNone) ==> All(s') == {}
    ensures s'.owner == Idle(WasPending) ==> All(s') != {}
  {
    assert All(s') == All(s);
  }

  predicate NoneOk(s: State) { s.owner == Idle(WasNone) ==> All(s) <= s.pushed }

  /** How the owner comes to have answered None, and what others do to that. */
  lemma NoneFrom(s: State, e: Step, s': State)
    requires Next(s, e, s') && s'.owner == Idle(WasNone)
    ensures e.Consume? || s.owner == s'.owner
    ensures !e.Consume? ==> s.pushed <= s'.pushed && All(s') <= All(s) + s'.pushed
  {
    match e
    case BeginPoll(_) => case EnterLoop => case Consume(_) => case Inspect => case ResetQueued => case StartChild =>
    case ChildReturns(_) => case Relink => case SelfWake => case ReleaseSwap => case ReleaseDrop =>
    case BeginIter => case IterNext(_) => case BeginDrop => case DropNext(_) => case DropOwnerRef => case Drain(_) =>
    case Push(_, _) => case Upgrade(_, _) => case SetWoken(_) => case SwapQueued(_) => case ClearNext(_) =>
    case SwapHead(_) => case LinkPrev(_) => case CallWake(_) => case AwStep(_) => case Leave(_) =>
  }

  /** After `Ready(None)`, and until the next call, the set holds only what was pushed since. */
  lemma NoneMeansEmpty(r: Run<State, Step>, k: nat)
    requires IsRun(IsInit, Next, r) && k < |r.states| && r.states[k].owner == Idle(WasNone)
    ensures All(r.states[k]) <= r.states[k].pushed
  {
    forall s, e, s' | NoneOk(s) && Next(s, e, s') ensures NoneOk(s') {
      if s'.owner == Idle(WasNone) {
        NoneFrom(s, e, s');
        if e.Consume? { EmptyAnswer(s, e.e, s'); }
      }
    }
    Invariance(IsInit, Next, NoneOk, r, k);
  }

  // ----- Some, and a child's answer -----

  /** `poll_next` is about to return a child's output, or has returned one. */
  predicate GaveOutput(pc: OwnerPc) {
    pc == Idle(WasSome) || (pc.Releasing? && pc.caller.Poller?) || (pc.Released? && pc.caller.Poller?)
  }

  /** The owner ends the call it is in, or was last in, only by the next one. */
  predicate BeginsCall(e: Step) { e.BeginPoll? || e.BeginIter? || e.BeginDrop? }

  lemma OutputFrom(s: State, e: Step, s': State)
    requires Next(s, e, s')
    ensures !GaveOutput(s.owner) && GaveOutput(s'.owner) ==> e == ChildReturns(true) && s.owner.InPoll? && s'.owner == Releasing(s.owner.node, Poller)
    ensures GaveOutput(s.owner) && !BeginsCall(e) ==> GaveOutput(s'.owner)
    ensures GaveOutput(s.owner) && GaveOutput(s'.owner) ==> !BeginsCall(e) && !e.ChildReturns?
    ensures GaveOutput(s.owner) && GaveOutput(s'.owner) && NodeOf(s'.owner).Some? ==> NodeOf(s'.owner) == NodeOf(s.owner)
    ensures e == ChildReturns(true) ==> GaveOutput(s'.owner)
  {
    if OfThread(e) {
      ThreadsLeaveOwner(s, e, s');
    } else {
      match e
      case BeginPoll(_) => case EnterLoop => case Consume(_) => case Inspect => case ResetQueued => case StartChild =>
      case ChildReturns(_) => case Relink => case SelfWake => case ReleaseSwap => case ReleaseDrop =>
      case BeginIter => case IterNext(_) => case BeginDrop => case DropNext(_) => case DropOwnerRef => case Drain(_) =>
    }
  }

  /** The last answer of a child before state k, that of child n in step i, was Ready, and came
      in the current or last call. */
  ghost predicate LastWasReady(r: Run<State, Step>, i: int, k: nat, n: Node)
    requires |r.states| == |r.steps| + 1 && k < |r.states|
  {
    && 0 <= i < k && r.steps[i] == ChildReturns(true) && r.states[i].owner == InPoll(n)
    && forall j :: i < j < k ==> !r.steps[j].ChildReturns? && !BeginsCall(r.steps[j])
  }

  /** An output is returned, and a child released by `poll_next`, only after that child has
      answered Ready in this call ... */
  lemma {:induction false} SomeMeansReady(r: Run<State, Step>, k: nat) returns (i: nat, n: Node)
    requires IsRun(IsInit, Next, r) && k < |r.states| && GaveOutput(r.states[k].owner)
    ensures LastWasReady(r, i, k, n) && (NodeOf(r.states[k].owner).Some? ==> NodeOf(r.states[k].owner) == Some(n))
  {
    assert k > 0;
    var s, e, s' := r.states[k - 1], r.steps[k - 1], r.states[k - 1 + 1];
    assert Next(s, e, s');
    OutputFrom(s, e, s');
    if GaveOutput(s.owner) {
      i, n := SomeMeansReady(r, k - 1);
    } else {
      i, n := k - 1, s.owner.node;
    }
  }

  /** ... and when a child has, the call returns its output: until the next call the owner does
      nothing but release the child, or has answered Some. */
  lemma ReadyIsReturned(r: Run<State, Step>, i: nat, j: nat)
    requires IsRun(IsInit, Next, r) && i < j < |r.states| && r.steps[i] == ChildReturns(true)
    requires forall k :: i < k < j ==> !BeginsCall(r.steps[k])
    ensures GaveOutput(r.states[j].owner)
  {
    assert Next(r.states[i], r.steps[i], r.states[i + 1]);
    OutputFrom(r.states[i], r.steps[i], r.states[i + 1]);
    var keep := (s: State) => GaveOutput(s.owner);
    forall k | i + 1 <= k < j && keep(r.states[k]) ensures keep(r.states[k + 1]) {
      assert Next(r.states[k], r.steps[k], r.states[k + 1]);
      OutputFrom(r.states[k], r.steps[k], r.states[k + 1]);
    }
    Persistence(keep, r, i + 1, j);
  }

  lemma PendingFrom(s: State, e: Step, s': State, n: Node)
    requires Next(s, e, s')
    ensures e == ChildReturns(false) && s.owner == InPoll(n) ==> s'.owner == PolledPending(n)
    ensures s.owner == PolledPending(n) ==> s'.owner == s.owner || (e == Relink && n in All(s'))
  {
    if OfThread(e) {
      ThreadsLeaveOwner(s, e, s');
      ThreadsLeaveTask(s, e, s', n);
    } else {
      match e
      case BeginPoll(_) => case EnterLoop => case Consume(_) => case Inspect => case ResetQueued => case StartChild =>
      case ChildReturns(_) => case Relink => case SelfWake => case ReleaseSwap => case ReleaseDrop =>
      case BeginIter => case IterNext(_) => case BeginDrop => case DropNext(_) => case DropOwnerRef => case Drain(_) =>
    }
  }

  /** A child that answered Pending goes back into the set: the owner's next step lists it again. */
  lemma PendingIsListed(r: Run<State, Step>, i: nat, j: nat, n: Node)
    requires IsRun(IsInit, Next, r) && i < j < |r.states|
    requires r.steps[i] == ChildReturns(false) && r.states[i].owner == InPoll(n)
    ensures r.states[j].owner == PolledPending(n) || exists k :: i < k < j && r.steps[k] == Relink && n in All(r.states[k + 1])
  {
    assert Next(r.states[i], r.steps[i], r.states[i + 1]);
    PendingFrom(r.states[i], r.steps[i], r.states[i + 1], n);
    if r.states[j].owner != PolledPending(n) {
      var k := Origin((s: State) => s.owner != PolledPending(n), r, i + 1, j);
      assert Next(r.states[k], r.steps[k], r.states[k + 1]);
      PendingFrom(r.states[k], r.steps[k], r.states[k + 1], n);
      assert i < k < j && r.steps[k] == Relink && n in All(r.states[k + 1]);
    }
  }

  /** A future goes only when its child has been released, or is handed out by an IntoIter. */
  lemma FutureGoes(s: State, e: Step, s': State, n: Node)
    requires Next(s, e, s') && n in s.tasks && s.tasks[n].future && n in s'.tasks && !s'.tasks[n].future && e != IterNext(n)
    ensures s.owner.Released? && s.owner.node == n
  {
    if OfThread(e) {
      ThreadsLeaveOwner(s, e, s');
      ThreadsLeaveTask(s, e, s', n);
    } else {
      match e
      case BeginPoll(_) => case EnterLoop => case Consume(_) => case Inspect => case ResetQueued => case StartChild =>
      case ChildReturns(_) => case Relink => case SelfWake => case ReleaseSwap => case ReleaseDrop =>
      case BeginIter => case IterNext(_) => case BeginDrop => case DropNext(_) => case DropOwnerRef => case Drain(_) =>
    }
  }

  /** So `poll_next` drops a child's future only after that child has answered Ready. */
  lemma FutureDroppedWhenReady(r: Run<State, Step>, k: nat, n: Node)
    requires IsRun(IsInit, Next, r) && k < |r.steps|
    requires n in r.states[k].tasks && r.states[k].tasks[n].future
    requires n in r.states[k + 1].tasks && !r.states[k + 1].tasks[n].future
    requires G.InPollNext(r.states[k].owner)
    ensures exists i :: LastWasReady(r, i, k, n)
  {
    assert Next(r.states[k], r.steps[k], r.states[k + 1]);
    FutureGoes(r.states[k], r.steps[k], r.states[k + 1], n);
    var i, m := SomeMeansReady(r, k);
  }

  /** n is being released after its answer, or its future is gone. */
  predicate Completed(s: State, n: Node) {
    || s.owner == Releasing(n, Poller) || (s.owner.Released? && s.owner.node == n && s.owner.caller.Poller?)
    || (n in s.tasks && !s.tasks[n].future)
  }

  lemma CompletedStays(s: State, e: Step, s': State, n: Node)
    requires Next(s, e, s')
    ensures Completed(s, n) ==> Completed(s', n)
    ensures e == ChildReturns(true) && s.owner == InPoll(n) ==> Completed(s', n)
  {
    if OfThread(e) {
      ThreadsLeaveOwner(s, e, s');
      ThreadsLeaveTask(s, e, s', n);
    } else {
      match e
      case BeginPoll(_) => case EnterLoop => case Consume(_) => case Inspect => case ResetQueued => case StartChild =>
      case ChildReturns(_) => case Relink => case SelfWake => case ReleaseSwap => case ReleaseDrop =>
      case BeginIter => case IterNext(_) => case BeginDrop => case DropNext(_) => case DropOwnerRef => case Drain(_) =>
    }
  }

  /** A child that has answered Ready is never polled again. */
  lemma NeverPolledAfterReady(r: Run<State, Step>, i: nat, j: nat, n: Node)
    requires IsRun(IsInit, Next, r) && i < j < |r.states|
    requires r.steps[i] == ChildReturns(true) && r.states[i].owner == InPoll(n)
    ensures r.states[j].owner != InPoll(n)
  {
    assert Next(r.states[i], r.steps[i], r.states[i + 1]);
    CompletedStays(r.states[i], r.steps[i], r.states[i + 1], n);
    var keep := (s: State) => Completed(s, n);
    forall k | i + 1 <= k < j && keep(r.states[k]) ensures keep(r.states[k + 1]) {
      assert Next(r.states[k], r.steps[k], r.states[k + 1]);
      CompletedStays(r.states[k], r.steps[k], r.states[k + 1], n);
    }
    Persistence(keep, r, i + 1, j);
    G.StructureInEveryState(r, j);
    if n in r.states[j].tasks { assert TaskOk(r.states[j].tasks[n], n, r.states[j].owner); }
  }

  // ----- yielding -----

  predicate InLoop(pc: OwnerPc) {
    pc.Registering? || pc.Dequeuing? || pc.Got? || pc.Unlinked? || pc.Reset? || pc.InPoll? || pc.PolledPending?
  }

  /** In the loop fewer than two children have woken themselves; `poll_next` yields when two
      have, when it has polled as many children as there were, or when the queue is in between. */
  ghost predicate YieldOk(s: State) {
    && (InLoop(s.owner) ==> s.yielded < 2)
    && (s.owner.SelfWaking? ==> s.yielded >= 2 || s.polled == s.len || s.q.deq == Q.Rest(Q.Inconsistent))
  }

  lemma ConsumeYields(s: State, e: Q.Step, s': State)
    requires Next(s, Consume(e), s')
    ensures s'.yielded == s.yielded && (s'.owner.SelfWaking? ==> s'.q.deq == Q.Rest(Q.Inconsistent))
  {
  }

  lemma YieldKept(s: State, e: Step, s': State)
    requires Next(s, e, s') && YieldOk(s)
    ensures YieldOk(s')
  {
    if OfThread(e) {
      ThreadsLeaveOwner(s, e, s');
    } else if e.Consume? {
      ConsumeYields(s, e.e, s');
    } else {
      match e
      case BeginPoll(_) => case EnterLoop => case Inspect => case ResetQueued => case StartChild =>
      case ChildReturns(_) => case Relink => case SelfWake => case ReleaseSwap => case ReleaseDrop =>
      case BeginIter => case IterNext(_) => case BeginDrop => case DropNext(_) => case DropOwnerRef => case Drain(_) =>
    }
  }

  lemma YieldsOnlyWhenDue(r: Run<State, Step>, k: nat)
    requires IsRun(IsInit, Next, r) && k < |r.states|
    ensures YieldOk(r.states[k])
  {
    forall s, e, s' | YieldOk(s) && Next(s, e, s') ensures YieldOk(s') { YieldKept(s, e, s'); }
    Invariance(IsInit, Next, YieldOk, r, k);
  }

  /** In step i a child of this call is linked again that was woken since its poll began. */
  predicate WokeItself(s: State, e: Step) { e.Relink? && NodeOf(s.owner).Some? && NodeOf(s.owner).value in s.tasks && s.tasks[NodeOf(s.owner).value].woken }

  ghost function SelfWakers(r: Run<State, Step>, i: nat, j: nat): nat
    requires |r.states| == |r.steps| + 1 && i <= j < |r.states|
    decreases j - i
  {
    if i == j then 0 else SelfWakers(r, i, j - 1) + if WokeItself(r.states[j - 1], r.steps[j - 1]) then 1 else 0
  }

  lemma YieldedStep(s: State, e: Step, s': State)
    requires Next(s, e, s')
    ensures e.BeginPoll? ==> s'.yielded == 0
    ensures !e.BeginPoll? ==> s'.yielded == s.yielded + if WokeItself(s, e) then 1 else 0
  {
    if OfThread(e) {
      ThreadsLeaveOwner(s, e, s');
    } else {
      match e
      case BeginPoll(_) => case EnterLoop => case Consume(_) => case Inspect => case ResetQueued => case StartChild =>
      case ChildReturns(_) => case Relink => case SelfWake => case ReleaseSwap => case ReleaseDrop =>
      case BeginIter => case IterNext(_) => case BeginDrop => case DropNext(_) => case DropOwnerRef => case Drain(_) =>
    }
  }

  /** `yielded` counts the children of the call that were woken during their poll ... */
  lemma {:induction false} YieldedCounts(r: Run<State, Step>, i: nat, j: nat)
    requires IsRun(IsInit, Next, r) && i < j < |r.states| && r.steps[i].BeginPoll?
    requires forall k :: i < k < j ==> !r.steps[k].BeginPoll?
    ensures r.states[j].yielded == SelfWakers(r, i + 1, j)
    decreases j
  {
    assert Next(r.states[j - 1], r.steps[j - 1], r.states[j - 1 + 1]);
    YieldedStep(r.states[j - 1], r.steps[j - 1], r.states[j]);
    if j > i + 1 { YieldedCounts(r, i, j - 1); }
  }

  /** In step e some thread sets the `woken` flag of n. */
  predicate SetsWoken(s: State, e: Step, n: Node) { e.SetWoken? && e.t in s.threads && s.threads[e.t] == Upgraded(n) }

  predicate StartsPoll(s: State, e: Step, n: Node) { e.StartChild? && s.owner == Reset(n) }

  predicate IsWoken(s: State, n: Node) { n in s.tasks && s.tasks[n].woken }

  lemma WokenStep(s: State, e: Step, s': State, n: Node)
    requires Next(s, e, s')
    ensures StartsPoll(s, e, n) ==> !IsWoken(s', n)
    ensures SetsWoken(s, e, n) ==> IsWoken(s', n)
    ensures IsWoken(s, n) && !StartsPoll(s, e, n) ==> IsWoken(s', n)
    ensures !IsWoken(s, n) && !SetsWoken(s, e, n) ==> !IsWoken(s', n)
  {
    if OfThread(e) {
      ThreadsLeaveOwner(s, e, s');
      ThreadsLeaveTask(s, e, s', n);
    } else {
      match e
      case BeginPoll(_) => case EnterLoop => case Consume(_) => case Inspect => case ResetQueued => case StartChild =>
      case ChildReturns(_) => case Relink => case SelfWake => case ReleaseSwap => case ReleaseDrop =>
      case BeginIter => case IterNext(_) => case BeginDrop => case DropNext(_) => case DropOwnerRef => case Drain(_) =>
    }
  }

  /** ... as `woken` says exactly whether a thread has woken the child since its poll began. */
  lemma WokenSincePoll(r: Run<State, Step>, i: nat, j: nat, n: Node)
    requires IsRun(IsInit, Next, r) && i < j < |r.states| && StartsPoll(r.states[i], r.steps[i], n)
    requires forall k :: i < k < j ==> !StartsPoll(r.states[k], r.steps[k], n)
    ensures IsWoken(r.states[j], n) <==> exists k :: i < k < j && SetsWoken(r.states[k], r.steps[k], n)
  {
    StepWokens(r, i, n);
    if IsWoken(r.states[j], n) {
      var k := Origin((s: State) => IsWoken(s, n), r, i + 1, j);
      StepWokens(r, k, n);
    } else if k :| i < k < j && SetsWoken(r.states[k], r.steps[k], n) {
      StepWokens(r, k, n);
      var l := Origin((s: State) => !IsWoken(s, n), r, k + 1, j);
      StepWokens(r, l, n);
    }
  }

  lemma StepWokens(r: Run<State, Step>, k: nat, n: Node)
    requires IsRun(IsInit, Next, r) && k < |r.steps|
    ensures var s, e, s' := r.states[k], r.steps[k], r.states[k + 1];
            && (StartsPoll(s, e, n) ==> !IsWoken(s', n))
            && (SetsWoken(s, e, n) ==> IsWoken(s', n))
            && (IsWoken(s, n) && !StartsPoll(s, e, n) ==> IsWoken(s', n))
            && (!IsWoken(s, n) && !SetsWoken(s, e, n) ==> !IsWoken(s', n))
  {
    assert Next(r.states[k], r.steps[k], r.states[k + 1]);
    WokenStep(r.states[k], r.steps[k], r.states[k + 1], n);
  }

  // ----- the end -----

  predicate GoneOk(s: State) { s.owner == Gone ==> s.threads != map[] }

  lemma GoneKept(s: State, e: Step, s': State)
    requires Next(s, e, s') && GoneOk(s) && (s.owner == Gone ==> NoPush(s))
    ensures GoneOk(s')
  {
    if s'.owner == Gone && !e.DropOwnerRef? && !e.Leave? {
      var t :| t in s.threads;
      ThreadStays(s, e, s', t);
    }
  }

  lemma ThreadStays(s: State, e: Step, s': State, t: Tid)
    requires Next(s, e, s') && t in s.threads && !e.Leave? && !IsPush(s.threads[t])
    ensures t in s'.threads
  {
    match e
    case BeginPoll(_) => case EnterLoop => case Consume(_) => case Inspect => case ResetQueued => case StartChild =>
    case ChildReturns(_) => case Relink => case SelfWake => case ReleaseSwap => case ReleaseDrop =>
    case BeginIter => case IterNext(_) => case BeginDrop => case DropNext(_) => case DropOwnerRef => case Drain(_) =>
    case Push(_, _) => case Upgrade(_, _) => case SetWoken(_) => case SwapQueued(_) => case ClearNext(_) =>
    case SwapHead(_) => case LinkPrev(_) => case CallWake(_) => case AwStep(_) => case Leave(_) =>
  }

  /** Once the set has given up its reference to the queue, the queue is dropped as soon as no
      other thread has one, by whoever has the last. */
  lemma LastDropsQueue(r: Run<State, Step>, k: nat)
    requires IsRun(IsInit, Next, r) && k < |r.states|
    ensures r.states[k].owner == Gone ==> r.states[k].threads != map[]
  {
    var inv := (s: State) => Structure(s) && GoneOk(s);
    Q.InitInv();
    forall s, e, s' | inv(s) && Next(s, e, s') ensures inv(s') {
      KeepsStructure(s, e);
      if s.owner == Gone { NoPushUnlessIdle(s); }
      GoneKept(s, e, s');
    }
    Invariance(IsInit, Next, inv, r, k);
  }

  /** The drop of the queue is never stuck. */
  lemma DrainGoesOn(s: State)
    requires s.owner == Draining
    ensures exists e :: Drains(s, e)
  {
    assert Drains(s, Q.ConsumerStep(s.q.deq));
  }
}
