/** What `FuturesUnordered` promises, over every run of the model in FuturesUnordereds: no
    assertion or abort is reached, each task's list reference is freed exactly once, and
    `poll_next` terminates.  That it never sleeps on a woken child is in
    FuturesUnorderedWakeups. */
module FuturesUnorderedGuarantees {
  import opened Runs
  import opened Chains
  import opened FuturesUnordereds
  import Q = ReadyToRunQueues
  import A = AtomicWakers

  lemma StructureInEveryState(r: Run<State, Step>, k: nat)
    requires IsRun(IsInit, Next, r) && k < |r.states|
    ensures Structure(r.states[k])
  {
    Q.InitInv();
    forall s, e, s' | Structure(s) && Next(s, e, s') ensures Structure(s') {
      KeepsStructure(s, e);
    }
    Invariance(IsInit, Next, Structure, r, k);
  }

  // ----- the asserts and aborts -----

  /** `assert!(prev)` in `poll_next` holds: a dequeued task has its flag set. */
  lemma AssertPrevHolds(r: Run<State, Step>, k: nat)
    requires IsRun(IsInit, Next, r) && k < |r.states| && r.states[k].owner.Unlinked?
    ensures var s := r.states[k]; s.owner.node in s.tasks && s.tasks[s.owner.node].queued
  {
    StructureInEveryState(r, k);
    var s := r.states[k];
    assert TaskOk(s.tasks[s.owner.node], s.owner.node, s.owner);
  }

  /** `debug_assert!((*task).queued)` in `enqueue` holds, and the node is not in the chain and
      not claimed by another thread, as the queue's algorithm needs. */
  lemma EnqueueIsExclusive(r: Run<State, Step>, k: nat, t: Tid)
    requires IsRun(IsInit, Next, r) && k < |r.states|
    requires t in r.states[k].threads && r.states[k].threads[t].Claimed?
    ensures var s := r.states[k];
            var n := s.threads[t].node;
            && n in s.tasks && s.tasks[n].queued && s.tasks[n].ref != Freed
            && n !in s.q.order
            && forall u :: u in s.threads && ClaimOf(s.threads[u]) == Some(n) ==> u == t
  {
    StructureInEveryState(r, k);
    var s := r.states[k];
    var n := s.threads[t].node;
    ClaimMayEnqueue(s, t);
    ClaimIsUnique(s.threads, s.tasks, s.q.enq, s.owner, t, n);
    assert TaskOk(s.tasks[n], n, s.owner);
  }

  /** `queued` is false only for a task that is not released, is not in the queue and that no
      thread has claimed; so the raw pointer a waker enqueues is backed by the list's reference.
      Its future is there, unless `IntoIter::next` has just moved it out. */
  lemma UnqueuedIsOwned(r: Run<State, Step>, k: nat, n: Node)
    requires IsRun(IsInit, Next, r) && k < |r.states|
    requires n in r.states[k].tasks && !r.states[k].tasks[n].queued
    ensures var s := r.states[k];
            && (s.tasks[n].ref == Listed || s.tasks[n].ref == Polling)
            && (s.tasks[n].future <==> s.owner != Releasing(n, Iterator)) && n !in s.q.order
            && forall u :: u in s.threads ==> ClaimOf(s.threads[u]) != Some(n)
  {
    StructureInEveryState(r, k);
    var s := r.states[k];
    assert TaskOk(s.tasks[n], n, s.owner) && TokenOk(s.tasks[n], n, s.threads, s.q.order);
    forall u | u in s.threads ensures ClaimOf(s.threads[u]) != Some(n) {
      assert ThreadOk(s.threads[u], u, s.tasks, s.q.enq, s.owner);
    }
  }

  /** Every node in the chain is still backed by the list's reference, so no freed task is
      ever dequeued. */
  lemma QueuedIsNotFreed(r: Run<State, Step>, k: nat, n: Node)
    requires IsRun(IsInit, Next, r) && k < |r.states|
    requires n in r.states[k].q.order && n != Q.STUB
    ensures var s := r.states[k]; n in s.tasks && s.tasks[n].ref != Freed && s.tasks[n].queued
  {
    StructureInEveryState(r, k);
    var s := r.states[k];
    assert TokenOk(s.tasks[n], n, s.threads, s.q.order) && TaskOk(s.tasks[n], n, s.owner);
  }

  /** The abort of `Task::drop` is never reached: the reference is freed only once the future is gone. */
  lemma FutureGoneWhenFreed(r: Run<State, Step>, k: nat, n: Node)
    requires IsRun(IsInit, Next, r) && k < |r.states|
    requires n in r.states[k].tasks && r.states[k].tasks[n].ref == Freed
    ensures !r.states[k].tasks[n].future
  {
    StructureInEveryState(r, k);
    assert TaskOk(r.states[k].tasks[n], n, r.states[k].owner);
  }

  /** `take().unwrap()` of `IntoIter::next` holds: the future of a linked task is there. */
  lemma IterUnwrapHolds(r: Run<State, Step>, k: nat, n: Node)
    requires IsRun(IsInit, Next, r) && k < |r.states|
    requires r.states[k].owner == Iterating && n in All(r.states[k])
    ensures r.states[k].tasks[n].future
  {
    StructureInEveryState(r, k);
    assert TaskOk(r.states[k].tasks[n], n, r.states[k].owner);
  }

  // ----- the list's reference is freed exactly once -----

  ghost predicate FreesOk(s: State) {
    && NoDuplicates(s.frees)
    && (forall n :: n in s.frees ==> n in s.tasks)
    && (forall n :: n in s.tasks ==> (s.tasks[n].ref == Freed <==> n in s.frees))
    && (s.owner == Drained ==> Q.Fifo(s.q) == [])
  }

  /** A step frees the reference of one task that had not been freed, or of none. */
  ghost predicate FreesAtMostOne(s: State, s': State) {
    && (forall n :: n in s.tasks ==> n in s'.tasks)
    && (forall n :: n in s'.tasks && n !in s.tasks ==> s'.tasks[n].ref != Freed)
    && if s'.frees == s.frees then
         forall n :: n in s.tasks ==> (s'.tasks[n].ref == Freed <==> s.tasks[n].ref == Freed)
       else
         exists m :: m in s.tasks && s.tasks[m].ref != Freed && s'.frees == s.frees + [m] && s'.tasks[m].ref == Freed &&
                     forall n :: n in s.tasks && n != m ==> (s'.tasks[n].ref == Freed <==> s.tasks[n].ref == Freed)
  }

  predicate IsTaskStep(e: Step) {
    e.Inspect? || e.ReleaseDrop? || e.Relink? || e.ResetQueued? || e.StartChild? || e.ReleaseSwap? ||
    e.DropNext? || e.IterNext?
  }

  /** The task such a step is about. */
  function TaskOf(s: State, e: Step): Node
    requires IsTaskStep(e) && (e.DropNext? || e.IterNext? || NodeOf(s.owner).Some?)
  {
    if e.DropNext? || e.IterNext? then e.n else NodeOf(s.owner).value
  }

  lemma FreesOne(s: State, s': State, m: Node)
    requires m in s.tasks && m in s'.tasks && s.tasks[m].ref != Freed && s'.tasks[m].ref == Freed
    requires s'.frees == s.frees + [m] && s'.tasks == s.tasks[m := s'.tasks[m]]
    ensures FreesAtMostOne(s, s')
  {
  }

  lemma FreesNone(s: State, s': State, n: Node)
    requires n in s.tasks && n in s'.tasks && s'.frees == s.frees && s'.tasks == s.tasks[n := s'.tasks[n]]
    requires s'.tasks[n].ref == Freed <==> s.tasks[n].ref == Freed
    ensures FreesAtMostOne(s, s')
  {
  }

  /** A step on task n frees n, if anything. */
  lemma TaskStepFrees(s: State, e: Step, n: Node)
    requires Enabled(s, e) && IsTaskStep(e) && n == TaskOf(s, e)
    requires n in s.tasks && TaskOk(s.tasks[n], n, s.owner)
    ensures var s' := Apply(s, e);
            && n in s'.tasks && s'.tasks == s.tasks[n := s'.tasks[n]]
            && if s'.tasks[n].ref == Freed && s.tasks[n].ref != Freed then s'.frees == s.frees + [n]
               else s'.frees == s.frees && (s'.tasks[n].ref == Freed <==> s.tasks[n].ref == Freed)
  {
    match e
    case Inspect => case ReleaseDrop => case Relink => case ResetQueued => case StartChild => case ReleaseSwap => case DropNext(_) => case IterNext(_) =>
  }

  lemma OwnerFrees(s: State, e: Step)
    requires Structure(s) && Enabled(s, e) && IsTaskStep(e)
    ensures FreesAtMostOne(s, Apply(s, e))
  {
    var n, s' := TaskOf(s, e), Apply(s, e);
    TaskStepFrees(s, e, n);
    if s'.tasks[n].ref == Freed && s.tasks[n].ref != Freed { FreesOne(s, s', n); } else { FreesNone(s, s', n); }
  }

  lemma DrainFrees(s: State, e: Q.Step)
    requires Drains(s, e) && Structure(s)
    ensures FreesAtMostOne(s, DoDrain(s, e))
  {
    var d := Q.Apply(s.q, e).deq;
    if HandsOut(d) {
      DrainHandsOut(s, e, d.r.node);
      FreesOne(s, DoDrain(s, e), d.r.node);
    }
  }

  /** All other steps free nothing and change no reference. */
  lemma OthersFreeNothing(s: State, e: Step)
    requires Enabled(s, e) && !IsTaskStep(e) && !e.Drain?
    ensures var s' := Apply(s, e);
            && s'.frees == s.frees
            && (forall n :: n in s.tasks ==> n in s'.tasks && s'.tasks[n].ref == s.tasks[n].ref)
            && (forall n :: n in s'.tasks && n !in s.tasks ==> s'.tasks[n].ref != Freed)
            && (s'.owner == Drained ==> s.owner == Drained)
            && (s.owner == Drained ==> s'.q == s.q || e.ClearNext? || e.SwapHead? || e.LinkPrev?)
  {
    match e
    case BeginPoll(_) => case EnterLoop => case Consume(_) => case ChildReturns(_) => case SelfWake =>
    case BeginIter => case BeginDrop => case DropOwnerRef =>
    case Push(_, _) => case Upgrade(_, _) => case SetWoken(_) => case SwapQueued(_) => case ClearNext(_) =>
    case SwapHead(_) => case LinkPrev(_) => case CallWake(_) => case AwStep(_) => case Leave(_) =>
  }

  lemma StepFrees(s: State, e: Step)
    requires Structure(s) && Enabled(s, e)
    ensures FreesAtMostOne(s, Apply(s, e))
  {
    if IsTaskStep(e) {
      OwnerFrees(s, e);
    } else if e.Drain? {
      DrainFrees(s, e.e);
    } else {
      OthersFreeNothing(s, e);
    }
  }

  /** When `ReadyToRunQueue::drop` sees the queue empty, it is empty. */
  lemma DrainedIsEmpty(q: Q.State, e: Q.Step)
    requires Q.Inv(q) && Q.Enabled(q, e) && Q.IsConsumerStep(e) && q.enq == map[]
    requires Q.Apply(q, e).deq == Q.Rest(Q.Empty)
    ensures Q.Fifo(Q.Apply(q, e)) == []
  {
    assert q.deq.Rest?;
    Q.EmptyMeansEmpty(q);
  }

  lemma DrainStepEmpties(s: State, e: Q.Step)
    requires Drains(s, e) && Q.Inv(s.q) && s.q.enq == map[]
    ensures DoDrain(s, e).owner == Drained ==> Q.Fifo(DoDrain(s, e).q) == []
  {
    if DoDrain(s, e).owner == Drained { DrainedIsEmpty(s.q, e); }
  }

  lemma DrainedStaysEmpty(s: State, e: Step)
    requires Structure(s) && Enabled(s, e)
    requires s.owner == Drained ==> Q.Fifo(s.q) == []
    ensures Apply(s, e).owner == Drained ==> Q.Fifo(Apply(s, e).q) == []
  {
    if e.Drain? {
      assert forall t :: t in s.q.enq ==> t in s.threads;
      DrainStepEmpties(s, e.e);
    } else if IsTaskStep(e) {
      TaskStepNotDrained(s, e);
    } else {
      OthersFreeNothing(s, e);
    }
  }

  lemma TaskStepNotDrained(s: State, e: Step)
    requires Enabled(s, e) && IsTaskStep(e)
    ensures Apply(s, e).owner != Drained
  {
    match e
    case Inspect => case ReleaseDrop => case Relink => case ResetQueued => case StartChild => case ReleaseSwap => case DropNext(_) => case IterNext(_) =>
  }

  lemma FreedList(s: State, s': State)
    requires NoDuplicates(s.frees) && FreesAtMostOne(s, s')
    requires forall n :: n in s.frees ==> n in s.tasks
    requires forall n :: n in s.tasks ==> (s.tasks[n].ref == Freed <==> n in s.frees)
    ensures NoDuplicates(s'.frees)
    ensures forall n :: n in s'.frees ==> n in s'.tasks
    ensures forall n :: n in s'.tasks ==> (s'.tasks[n].ref == Freed <==> n in s'.frees)
  {
    if s'.frees != s.frees {
      var m :| m in s.tasks && s.tasks[m].ref != Freed && s'.frees == s.frees + [m] && s'.tasks[m].ref == Freed;
      assert m !in s.frees;
    }
  }

  lemma KeepsFrees(s: State, e: Step)
    requires Structure(s) && FreesOk(s) && Enabled(s, e)
    ensures FreesOk(Apply(s, e))
  {
    StepFrees(s, e);
    FreedList(s, Apply(s, e));
    DrainedStaysEmpty(s, e);
  }

  lemma FreesInEveryState(r: Run<State, Step>, k: nat)
    requires IsRun(IsInit, Next, r) && k < |r.states|
    ensures Structure(r.states[k]) && FreesOk(r.states[k])
  {
    Q.InitInv();
    var inv := (s: State) => Structure(s) && FreesOk(s);
    forall s, e, s' | inv(s) && Next(s, e, s') ensures inv(s') {
      KeepsStructure(s, e);
      KeepsFrees(s, e);
    }
    Invariance(IsInit, Next, inv, r, k);
  }

  /** In every run no task's reference is freed twice; and once the set and the queue are
      dropped, every task that was ever pushed has been freed. */
  lemma FreedExactlyOnce(r: Run<State, Step>, k: nat)
    requires IsRun(IsInit, Next, r) && k < |r.states|
    ensures NoDuplicates(r.states[k].frees)
    ensures r.states[k].owner == Drained ==> forall n :: n in r.states[k].tasks <==> n in r.states[k].frees
  {
    FreesInEveryState(r, k);
    var s := r.states[k];
    if s.owner == Drained {
      forall n | n in s.tasks ensures n in s.frees {
        assert TaskOk(s.tasks[n], n, s.owner) && TokenOk(s.tasks[n], n, s.threads, s.q.order);
        Q.NonStubMember(s.q.order, n);
        assert s.tasks[n].ref == Listed ==> n in All(s);
      }
    }
  }

  /** The abort of `ReadyToRunQueue::drop` on an inconsistent queue is never reached. */
  lemma NeverAborts(r: Run<State, Step>, k: nat)
    requires IsRun(IsInit, Next, r) && k < |r.states|
    ensures r.states[k].owner != Aborted
  {
    StructureInEveryState(r, k);
  }

  // ----- poll_next terminates -----

  function Waiting(s: State): set<Node> { set n | n in s.tasks && s.tasks[n].ref == OfQueue }

  predicate InPollNext(pc: OwnerPc) {
    match pc
    case Registering => true
    case Dequeuing => true
    case Got(_) => true
    case Unlinked(_) => true
    case Reset(_) => true
    case InPoll(_) => true
    case PolledPending(_) => true
    case SelfWaking => true
    case Releasing(_, caller) => caller.Poller?
    case Released(_, _, caller) => caller.Poller?
    case _ => false
  }

  /** In the loop `len` counts the linked tasks and the one being polled, and no more children
      have been polled than that. */
  ghost predicate PollOk(s: State) {
    match s.owner
    case Registering => |All(s)| == s.len && s.polled == 0
    case Dequeuing => |All(s)| == s.len && (s.polled < s.len || s.polled == s.len == 0)
    case Got(_) => |All(s)| == s.len && (s.polled < s.len || s.polled == s.len == 0)
    case Unlinked(_) => |All(s)| + 1 == s.len && s.polled < s.len
    case Reset(_) => |All(s)| + 1 == s.len && s.polled < s.len
    case InPoll(_) => |All(s)| + 1 == s.len && s.polled < s.len
    case PolledPending(_) => |All(s)| + 1 == s.len && s.polled <= s.len
    case SelfWaking => s.polled <= s.len
    case Releasing(_, caller) => caller.Poller? ==> s.polled <= s.len
    case Released(_, _, caller) => caller.Poller? ==> s.polled <= s.len
    case _ => true
  }

  function DequeueStage(d: Q.DequeuePc): nat {
    match d
    case Rest(_) => 18
    case PassedStub => 17
    case CheckHead => 16
    case ClearStub => 15
    case SwapStub => 14
    case LinkStub(_) => 13
    case LastLook => 12
  }

  lemma DequeueGoesOn(q: Q.State, e: Q.Step)
    requires Q.IsConsumerStep(e) && Q.Enabled(q, e) && !Q.Apply(q, e).deq.Rest?
    ensures DequeueStage(Q.Apply(q, e).deq) < DequeueStage(q.deq)
  {
  }

  /** The stages of one round of the loop, later ones lower. */
  function Stage(pc: OwnerPc, d: Q.DequeuePc): nat {
    match pc
    case Registering => 20
    case PolledPending(_) => 19
    case Dequeuing => DequeueStage(d)
    case Got(_) => 11
    case Unlinked(_) => 10
    case Reset(_) => 9
    case InPoll(_) => 8
    case SelfWaking => 7
    case Releasing(_, _) => 6
    case Released(_, _, _) => 5
    case _ => 0
  }

  /** How far the owner still is from the end of `register`. */
  function RegisterStage(pc: map<Tid, A.Pc>): nat {
    if OWNER !in pc then 0
    else match pc[OWNER]
         case RegLocked(_) => 5
         case RegStored(_) => 4
         case RegTake(_) => 3
         case RegSwap(_) => 2
         case _ => 1
  }

  /** Released tasks still to be taken off the queue, and children still to be polled. */
  function Rank(s: State): int {
    21 * (|Waiting(s)| + s.len - s.polled) + Stage(s.owner, s.q.deq) + RegisterStage(s.aw.pc)
  }

  /** The steps of the thread that runs `poll_next`. */
  predicate IsPollStep(e: Step) {
    (e.AwStep? && e.a.t == OWNER) || e.EnterLoop? || e.Consume? || e.Inspect? || e.ResetQueued? || e.StartChild? || e.ChildReturns? || e.Relink? ||
    e.SelfWake? || e.ReleaseSwap? || e.ReleaseDrop?
  }

  lemma RefsOfPut(s: State, s': State, n: Node)
    requires n in s'.tasks && s'.tasks == s.tasks[n := s'.tasks[n]]
    ensures All(s') == (if s'.tasks[n].ref == Listed then All(s) + {n} else All(s) - {n})
    ensures Waiting(s') == (if s'.tasks[n].ref == OfQueue then Waiting(s) + {n} else Waiting(s) - {n})
  {
  }

  lemma SameRefs(s: State, s': State)
    requires s'.tasks.Keys == s.tasks.Keys && forall n :: n in s.tasks ==> s'.tasks[n].ref == s.tasks[n].ref
    ensures All(s') == All(s) && Waiting(s') == Waiting(s)
  {
  }

  function One(b: bool): nat { if b then 1 else 0 }

  /** How the two counts change with the reference of one task. */
  lemma CountsOfPut(s: State, s': State, n: Node)
    requires n in s.tasks && n in s'.tasks && s'.tasks == s.tasks[n := s'.tasks[n]]
    ensures |All(s')| + One(s.tasks[n].ref == Listed) == |All(s)| + One(s'.tasks[n].ref == Listed)
    ensures |Waiting(s')| + One(s.tasks[n].ref == OfQueue) == |Waiting(s)| + One(s'.tasks[n].ref == OfQueue)
  {
    RefsOfPut(s, s', n);
    assert n in All(s) <==> s.tasks[n].ref == Listed;
    assert n in Waiting(s) <==> s.tasks[n].ref == OfQueue;
  }

  lemma PollInspect(s: State, n: Node)
    requires PollOk(s) && s.owner == Got(n) && n in s.tasks && TaskOk(s.tasks[n], n, s.owner)
    ensures PollOk(DoInspect(s)) && Rank(DoInspect(s)) < Rank(s)
  {
    CountsOfPut(s, DoInspect(s), n);
  }

  lemma PollRelink(s: State, n: Node)
    requires PollOk(s) && s.owner == PolledPending(n) && n in s.tasks && TaskOk(s.tasks[n], n, s.owner)
    ensures PollOk(DoRelink(s)) && Rank(DoRelink(s)) < Rank(s)
  {
    CountsOfPut(s, DoRelink(s), n);
  }

  lemma PollFlags(s: State, e: Step, n: Node)
    requires PollOk(s) && Enabled(s, e) && (e.ResetQueued? || e.StartChild?) && NodeOf(s.owner) == Some(n)
    ensures PollOk(Apply(s, e)) && Rank(Apply(s, e)) < Rank(s)
  {
    SameRefs(s, Apply(s, e));
  }

  /** A step of the loop on the task it is busy with. */
  lemma PollTaskStep(s: State, e: Step)
    requires Structure(s) && PollOk(s) && Enabled(s, e)
    requires e.Inspect? || e.ResetQueued? || e.StartChild? || e.Relink?
    ensures PollOk(Apply(s, e)) && Rank(Apply(s, e)) < Rank(s)
  {
    var n := s.owner.node;
    assert TaskOk(s.tasks[n], n, s.owner);
    match e
    case Inspect => PollInspect(s, n);
    case Relink => PollRelink(s, n);
    case ResetQueued => PollFlags(s, e, n);
    case StartChild => PollFlags(s, e, n);
  }

  lemma ConsumeKeepsRefs(s: State, e: Q.Step)
    requires Q.Enabled(s.q, e)
    ensures var s' := DoConsume(s, e);
            && s'.len == s.len && s'.polled == s.polled && s'.q.deq == Q.Apply(s.q, e).deq && s'.aw == s.aw
            && s'.tasks.Keys == s.tasks.Keys && forall n :: n in s.tasks ==> s'.tasks[n].ref == s.tasks[n].ref
  {
  }

  /** A step inside `dequeue` ... */
  lemma PollDequeues(s: State, e: Q.Step)
    requires PollOk(s) && Dequeues(s, e)
    requires !Q.Apply(s.q, e).deq.Rest?
    ensures PollOk(DoConsume(s, e))
    ensures 0 <= Rank(DoConsume(s, e)) < Rank(s)
  {
    ConsumeKeepsRefs(s, e);
    SameRefs(s, DoConsume(s, e));
    DequeueGoesOn(s.q, e);
  }

  /** ... and one that ends it. */
  lemma PollDequeued(s: State, e: Q.Step)
    requires PollOk(s) && Dequeues(s, e)
    requires var d := Q.Apply(s.q, e).deq; d.Rest? && (d.r.Data? ==> d.r.node in s.tasks)
    ensures PollOk(DoConsume(s, e))
    ensures 0 <= Rank(DoConsume(s, e)) < Rank(s)
  {
    ConsumeKeepsRefs(s, e);
    SameRefs(s, DoConsume(s, e));
  }

  lemma PollConsume(s: State, e: Q.Step)
    requires Dequeues(s, e) && Structure(s) && PollOk(s)
    ensures PollOk(DoConsume(s, e))
    ensures 0 <= Rank(DoConsume(s, e)) < Rank(s)
  {
    var d := Q.Apply(s.q, e).deq;
    if d.Rest? {
      if d.r.Data? { ConsumedTokens(s, e, d.r.node, Task(true, false, false, Freed, WithOwner)); }
      PollDequeued(s, e);
    } else {
      PollDequeues(s, e);
    }
  }

  lemma PollRelease(s: State, e: Step)
    requires Structure(s) && PollOk(s) && Enabled(s, e) && InPollNext(s.owner) && (e.ReleaseSwap? || e.ReleaseDrop?)
    ensures PollOk(Apply(s, e))
    ensures e.ReleaseSwap? ==> 0 <= Rank(Apply(s, e)) < Rank(s)
  {
    if e.ReleaseSwap? { SameRefs(s, DoReleaseSwap(s)); }
  }

  /** A step of the owner inside `register`. */
  lemma RegisterGetsOn(aw: A.State, a: A.Step)
    requires a.t == OWNER && A.Enabled(aw, a) && OWNER in aw.pc && A.InRegister(aw.pc[OWNER])
    ensures RegisterStage(A.Apply(aw, a).pc) < RegisterStage(aw.pc)
  {
    match a
    case RegisterStore(_) => case RegisterRelease(_) => case RegisterTake(_) => case RegisterSwap(_) => case RegisterWake(_) =>
    case _ =>
  }

  lemma PollRegister(s: State, a: A.Step)
    requires Structure(s) && PollOk(s) && Enabled(s, AwStep(a)) && a.t == OWNER
    ensures PollOk(DoAwStep(s, a))
    ensures 0 <= Rank(DoAwStep(s, a)) < Rank(s)
  {
    OwnerRegisters(s, a);
    RegisterGetsOn(s.aw, a);
    SameButWaker(s, DoAwStep(s, a));
  }

  lemma OwnerRegisters(s: State, a: A.Step)
    requires Structure(s) && Enabled(s, AwStep(a)) && a.t == OWNER
    ensures OWNER in s.aw.pc && A.InRegister(s.aw.pc[OWNER]) && s.owner == Registering
  {
  }

  lemma SameButWaker(s: State, s': State)
    requires PollOk(s) && s.owner == Registering && s' == s.(aw := s'.aw)
    ensures PollOk(s') && Rank(s') - Rank(s) == RegisterStage(s'.aw.pc) - RegisterStage(s.aw.pc)
    ensures 0 <= Rank(s')
  {
    SameRefs(s, s');
  }

  /** Every step of `poll_next` brings it closer to its end. */
  lemma PollStepDecreases(s: State, e: Step)
    requires Structure(s) && PollOk(s) && Enabled(s, e) && InPollNext(s.owner) && IsPollStep(e)
    ensures PollOk(Apply(s, e))
    ensures InPollNext(Apply(s, e).owner) ==> 0 <= Rank(Apply(s, e)) < Rank(s)
  {
    if e.Inspect? || e.ResetQueued? || e.StartChild? || e.Relink? {
      PollTaskStep(s, e);
    } else if e.Consume? {
      PollConsume(s, e.e);
    } else if e.ReleaseSwap? || e.ReleaseDrop? {
      PollRelease(s, e);
    } else if e.AwStep? {
      PollRegister(s, e.a);
    } else {
      SameRefs(s, Apply(s, e));
    }
  }

  lemma OtherStepsTouchLittle(s: State, e: Step)
    requires Enabled(s, e) && InPollNext(s.owner) && !IsPollStep(e)
    ensures var s' := Apply(s, e);
            && s'.owner == s.owner && s'.len == s.len && s'.polled == s.polled && s'.q.deq == s.q.deq
            && s'.tasks.Keys == s.tasks.Keys && forall n :: n in s.tasks ==> s'.tasks[n].ref == s.tasks[n].ref
  {
    match e
    case SwapHead(t) => case Upgrade(t, n) => case SetWoken(t) => case SwapQueued(t) => case ClearNext(t) => case LinkPrev(t) =>
    case CallWake(t) => case AwStep(a) => case Leave(t) =>
    case _ =>
  }

  /** Nor do they move the owner on in `register`. */
  lemma OtherStepsLeaveRegister(s: State, e: Step)
    requires Enabled(s, e) && InPollNext(s.owner) && !IsPollStep(e)
    requires forall t :: t in s.threads ==> t != OWNER
    ensures RegisterStage(Apply(s, e).aw.pc) == RegisterStage(s.aw.pc)
  {
    match e
    case AwStep(a) => case CallWake(t) =>
    case SwapHead(t) => case Upgrade(t, n) => case SetWoken(t) => case SwapQueued(t) => case ClearNext(t) =>
    case LinkPrev(t) => case Leave(t) =>
    case _ =>
  }

  /** No step of another thread sets a running `poll_next` back. */
  lemma OtherStepsKeepRank(s: State, e: Step)
    requires Structure(s) && PollOk(s) && Enabled(s, e) && InPollNext(s.owner) && !IsPollStep(e)
    ensures PollOk(Apply(s, e)) && Rank(Apply(s, e)) == Rank(s) && Apply(s, e).owner == s.owner
  {
    OtherStepsTouchLittle(s, e);
    assert forall t :: t in s.threads ==> ThreadOk(s.threads[t], t, s.tasks, s.q.enq, s.owner);
    OtherStepsLeaveRegister(s, e);
    RankOfParts(s, Apply(s, e));
  }

  lemma RankOfParts(s: State, s': State)
    requires PollOk(s) && s'.owner == s.owner && s'.len == s.len && s'.polled == s.polled && s'.q.deq == s.q.deq
    requires RegisterStage(s'.aw.pc) == RegisterStage(s.aw.pc)
    requires s'.tasks.Keys == s.tasks.Keys && forall n :: n in s.tasks ==> s'.tasks[n].ref == s.tasks[n].ref
    ensures PollOk(s') && Rank(s') == Rank(s)
  {
    SameRefs(s, s');
  }

  lemma BeginPollOk(s: State, w: Waker)
    ensures PollOk(DoBeginPoll(s, w))
  {
    SameRefs(s, DoBeginPoll(s, w));
  }

  /** A step of its own is always possible for a running `poll_next`: it waits for no other
      thread.  (Inside a child's `poll` that step is the child's return.) */
  ghost predicate PollGoesOn(s: State) { exists e :: IsPollStep(e) && Enabled(s, e) }

  lemma RegisterGoesOn(s: State)
    requires Structure(s) && OWNER in s.aw.pc
    ensures PollGoesOn(s)
  {
    var a := A.StepOf(s.aw.pc[OWNER], OWNER);
    A.StepIsEnabled(s.aw, OWNER);
    assert IsPollStep(AwStep(a)) && Enabled(s, AwStep(a));
  }

  lemma OwnerCanStep(s: State, e: Step)
    requires IsPollStep(e) && Enabled(s, e)
    ensures PollGoesOn(s)
  {
  }

  lemma PollIsNeverStuck(s: State)
    requires Structure(s) && InPollNext(s.owner)
    ensures PollGoesOn(s)
  {
    match s.owner
    case Registering => if OWNER in s.aw.pc { RegisterGoesOn(s); } else { OwnerCanStep(s, EnterLoop); }
    case Dequeuing => OwnerCanStep(s, Consume(Q.ConsumerStep(s.q.deq)));
    case Got(_) => OwnerCanStep(s, Inspect);
    case Unlinked(_) => OwnerCanStep(s, ResetQueued);
    case Reset(_) => OwnerCanStep(s, StartChild);
    case InPoll(_) => OwnerCanStep(s, ChildReturns(true));
    case PolledPending(_) => OwnerCanStep(s, Relink);
    case SelfWaking => OwnerCanStep(s, SelfWake);
    case Releasing(_, _) => OwnerCanStep(s, ReleaseSwap);
    case Released(_, _, _) => OwnerCanStep(s, ReleaseDrop);
  }

  /** `poll_next` terminates: from the moment it has read `len`, and whatever the other threads
      do meanwhile, it takes at most 21 * (released tasks + len) + 25 steps, those of `register`
      and of `dequeue` included; and as long as it has not returned, one more is possible. */
  lemma PollNextTerminates(r: Run<State, Step>, i: nat, j: nat)
    requires IsRun(IsInit, Next, r) && i < j < |r.states|
    requires r.steps[i].BeginPoll?
    requires forall k :: i < k <= j ==> InPollNext(r.states[k].owner)
    ensures Count(IsPollStep, r.steps, i + 1, j) <= 21 * (|Waiting(r.states[i + 1])| + r.states[i + 1].len) + 25
    ensures PollGoesOn(r.states[j])
  {
    StructureInEveryState(r, j);
    PollIsNeverStuck(r.states[j]);
    FirstRank(r, i);
    forall k | i + 1 <= k < j && Ranked(r.states[k])
      ensures Ranked(r.states[k + 1]) && Rank(r.states[k + 1]) + (if IsPollStep(r.steps[k]) then 1 else 0) <= Rank(r.states[k])
    {
      NextRank(r, k);
    }
    RankFalls(Ranked, Rank, IsPollStep, r, i + 1, j);
  }

  ghost predicate Ranked(s: State) { PollOk(s) && 0 <= Rank(s) }

  lemma FirstRank(r: Run<State, Step>, i: nat)
    requires IsRun(IsInit, Next, r) && i < |r.steps| && r.steps[i].BeginPoll?
    ensures Ranked(r.states[i + 1])
    ensures Rank(r.states[i + 1]) <= 21 * (|Waiting(r.states[i + 1])| + r.states[i + 1].len) + 25
  {
    assert Next(r.states[i], r.steps[i], r.states[i + 1]);
    BeginsWithRank(r.states[i], r.steps[i], r.states[i + 1]);
  }

  lemma NextRank(r: Run<State, Step>, k: nat)
    requires IsRun(IsInit, Next, r) && k < |r.steps|
    requires Ranked(r.states[k]) && InPollNext(r.states[k].owner) && InPollNext(r.states[k + 1].owner)
    ensures Ranked(r.states[k + 1])
    ensures Rank(r.states[k + 1]) + (if IsPollStep(r.steps[k]) then 1 else 0) <= Rank(r.states[k])
  {
    assert Next(r.states[k], r.steps[k], r.states[k + 1]);
    StructureInEveryState(r, k);
    RankStep(r.states[k], r.steps[k], r.states[k + 1]);
  }

  lemma BeginsWithRank(s: State, e: Step, s': State)
    requires Next(s, e, s') && e.BeginPoll?
    ensures Ranked(s') && Rank(s') <= 21 * (|Waiting(s')| + s'.len) + 25
  {
    BeginPollOk(s, e.w);
  }

  lemma RankStep(s: State, e: Step, s': State)
    requires Structure(s) && Next(s, e, s') && InPollNext(s.owner) && InPollNext(s'.owner) && Ranked(s)
    ensures Ranked(s') && Rank(s') + (if IsPollStep(e) then 1 else 0) <= Rank(s)
  {
    if IsPollStep(e) { PollStepDecreases(s, e); } else { OtherStepsKeepRank(s, e); }
  }
}
