/** `FuturesUnordered` as an object that shares its queue and its waker with other threads:
    each method is one atomic step of mod.rs or task.rs, performed on the fields. */
module FuturesUnorderedObject {
  import opened Runs
  import opened Chains
  import opened FuturesUnordereds
  import Q = ReadyToRunQueues
  import A = AtomicWakers
  import G = FuturesUnorderedGuarantees

  method StepDequeue(queue: Q.ReadyToRunQueue)
    requires queue.Valid()
    modifies queue
    ensures queue.Valid()
    ensures queue.View() == Q.Apply(old(queue.View()), Q.ConsumerStep(old(queue.deq)))
  {
    match queue.deq
    case Rest(_) => queue.FirstLoad();
    case PassedStub => queue.SecondLoad();
    case CheckHead => queue.LoadHead();
    case ClearStub => queue.ClearStubNext();
    case SwapStub => queue.SwapInStub();
    case LinkStub(_) => queue.LinkPrevToStub();
    case LastLook => queue.LookAgain();
  }

  ghost predicate Reachable(s: State) { Reaches<State, Step>(IsInit, Next, s) }

  lemma Onwards(s: State, e: Step)
    requires Reachable(s) && Enabled(s, e)
    ensures Reachable(Apply(s, e))
  {
    NextReached<State, Step>(IsInit, Next, s, e, Apply(s, e));
  }

  lemma ReachableStructure(s: State)
    requires Reachable(s)
    ensures Structure(s)
  {
    var r: Run<State, Step> :| IsRun(IsInit, Next, r) && r.states[|r.steps|] == s;
    G.StructureInEveryState(r, |r.steps|);
  }

  lemma PartsAreSound(s: State)
    requires Reachable(s)
    ensures Q.Inv(s.q) && A.Inv(s.aw)
  {
    ReachableStructure(s);
  }

  lemma OwnersTask(s: State)
    requires Reachable(s) && NodeOf(s.owner).Some?
    ensures NodeOf(s.owner).value in s.tasks
    ensures s.owner.Unlinked? ==> s.tasks[s.owner.node].queued
  {
    ReachableStructure(s);
    assert TaskOk(s.tasks[NodeOf(s.owner).value], NodeOf(s.owner).value, s.owner);
  }

  lemma ListedHasFuture(s: State, n: Node)
    requires Reachable(s) && s.owner == Iterating && n in All(s)
    ensures s.tasks[n].future
  {
    ReachableStructure(s);
    assert TaskOk(s.tasks[n], n, s.owner);
  }

  lemma DequeuedTask(s: State, e: Q.Step, n: Node)
    requires Dequeues(s, e) && Reachable(s) && Q.Apply(s.q, e).deq == Q.Rest(Q.Data(n))
    ensures n in s.tasks
  {
    ReachableStructure(s);
    StructureConsumeData(s, e, n);
  }

  lemma DrainedTask(s: State, e: Q.Step, n: Node)
    requires Drains(s, e) && Reachable(s) && Q.Apply(s.q, e).deq == Q.Rest(Q.Data(n))
    ensures n in s.tasks
  {
    ReachableStructure(s);
    DrainHandsOut(s, e, n);
  }

  lemma DrainIsConsistent(s: State, e: Q.Step)
    requires Drains(s, e) && Reachable(s)
    ensures Q.Apply(s.q, e).deq != Q.Rest(Q.Inconsistent)
  {
    ReachableStructure(s);
    DrainQuiet(s, e);
  }

  lemma ClaimIsExclusive(s: State, t: Tid)
    requires Reachable(s) && t in s.threads && s.threads[t].Claimed?
    ensures Q.CanEnqueue(s.q, s.threads[t].node) && t !in s.q.enq
  {
    ReachableStructure(s);
    ClaimMayEnqueue(s, t);
  }

  lemma SwapsHead(s: State, t: Tid) returns (s': State)
    requires Reachable(s) && Enabled(s, SwapHead(t))
    ensures Q.Inv(s.q) && Reachable(s') && s' == DoSwapHead(s, t)
    ensures t in s.threads && t in s.q.enq && s.q.enq[t].Cleared? && s.threads[t].Cleared? && s.threads[t].node in s.tasks
    ensures var n := s.threads[t].node;
            s' == s.(q := Q.DoSwapHead(s.q, t), tasks := s.tasks[n := s.tasks[n].(tok := InChain)],
                     threads := s.threads[t := Linking(n, s.threads[t].push)])
  {
    PartsAreSound(s);
    Onwards(s, SwapHead(t));
    s' := DoSwapHead(s, t);
  }

  lemma LinksPrev(s: State, t: Tid) returns (s': State)
    requires Reachable(s) && Enabled(s, LinkPrev(t))
    ensures Q.Inv(s.q) && Reachable(s') && s' == DoLinkPrev(s, t)
    ensures s' == s.(q := Q.DoLinkPrev(s.q, t),
                     threads := if s.threads[t].push then s.threads - {t} else s.threads[t := ToWake])
  {
    PartsAreSound(s);
    Onwards(s, LinkPrev(t));
    s' := DoLinkPrev(s, t);
  }

  class FuturesUnordered {
    const queue: Q.ReadyToRunQueue
    const waker: A.AtomicWaker
    var tasks: map<Node, Task>
    ghost var listing: seq<Node>
    var owner: OwnerPc
    var threads: map<Tid, ThreadPc>
    var w: Waker
    var len: nat
    var polled: nat
    var yielded: nat
    ghost var stale: set<Node>
    ghost var pushed: set<Node>
    ghost var frees: seq<Node>

    ghost function View(): State
      reads this, queue, waker
    {
      State(queue.View(), waker.View(), tasks, listing, owner, threads, w, len, polled, yielded, stale, pushed, frees)
    }

    ghost predicate Valid()
      reads this, queue, waker
    {
      Reachable(View())
    }

    constructor ()
      ensures View() == Init && fresh(queue) && fresh(waker) && Valid()
    {
      queue := new Q.ReadyToRunQueue();
      waker := new A.AtomicWaker();
      tasks, owner, threads := map[], Idle(NotPolled), map[];
      w, len, polled, yielded := 0, 0, 0, 0;
      listing, stale, pushed, frees := [], {}, {}, [];
      new;
      StartReached<State, Step>(IsInit, Next, Init);
    }

    /** `self.len()`. */
    function ListLen(): (n: nat)
      ensures n == |All(View())|
      reads this, queue, waker
    {
      var all := set n | n in tasks && tasks[n].ref == Listed;
      assert all == All(View());
      |all|
    }

    // ----- the owner -----

    /** `let len = self.len()`, and `register` up to its first atomic step. */
    method BeginPollNext(cx: Waker)
      requires Valid() && Enabled(View(), BeginPoll(cx))
      modifies this, waker
      ensures View() == DoBeginPoll(old(View()), cx) && Valid()
    {
      PartsAreSound(View());
      Onwards(View(), BeginPoll(cx));
      len, polled, yielded := ListLen(), 0, 0;
      w := cx;
      pushed := {};
      waker.BeginRegister(OWNER, cx);
      owner := Registering;
    }

    method FinishRegister()
      requires Valid() && Enabled(View(), EnterLoop)
      modifies this
      ensures View() == DoEnterLoop(old(View())) && Valid()
    {
      Onwards(View(), EnterLoop);
      owner := Dequeuing;
    }

    /** A step of `self.ready_to_run_queue.dequeue()`, and the match on its result. */
    method Dequeue()
      requires Valid() && owner == Dequeuing
      modifies this, queue
      ensures View() == DoConsume(old(View()), Q.ConsumerStep(old(queue.deq))) && Valid()
    {
      ghost var e := Q.ConsumerStep(queue.deq);
      ghost var s := View();
      PartsAreSound(s);
      Onwards(s, Consume(e));
      StepDequeue(queue);
      if queue.deq.Rest? {
        match queue.deq.r {
          case Data(n) =>
            DequeuedTask(s, e, n);
            tasks := tasks[n := tasks[n].(tok := WithOwner)];
            owner := Got(n);
          case Empty =>
            var all := set n | n in tasks && tasks[n].ref == Listed;
            assert all == All(s);
            owner := Idle(if all == {} then WasNone else WasPending);
          case Inconsistent =>
            owner := SelfWaking;
        }
      }
    }

    /** The match on `(*task).future`, and `unlink`. */
    method InspectTask()
      requires Valid() && owner.Got?
      modifies this
      ensures Enabled(old(View()), Inspect) && View() == DoInspect(old(View())) && Valid()
    {
      OwnersTask(View());
      Onwards(View(), Inspect);
      var n := owner.node;
      if tasks[n].future {
        tasks := tasks[n := tasks[n].(ref := Polling)];
        owner := Unlinked(n);
        listing := Unlisted(listing, n);
      } else {
        tasks := tasks[n := tasks[n].(ref := Freed, tok := Nowhere)];
        frees := frees + [n];
        owner := Dequeuing;
      }
    }

    /** `let prev = task.queued.swap(false); assert!(prev);` */
    method ResetQueuedFlag()
      requires Valid() && owner.Unlinked?
      modifies this
      ensures Enabled(old(View()), ResetQueued) && View() == DoResetQueued(old(View())) && Valid()
    {
      OwnersTask(View());
      Onwards(View(), ResetQueued);
      var n := owner.node;
      var prev := tasks[n].queued;
      assert prev;
      tasks := tasks[n := tasks[n].(queued := false, tok := Nowhere)];
      owner := Reset(n);
    }

    /** `task.woken.store(false)`, and the call of the child's `poll`. */
    method CallChild()
      requires Valid() && owner.Reset?
      modifies this
      ensures Enabled(old(View()), StartChild) && View() == DoStartChild(old(View())) && Valid()
    {
      OwnersTask(View());
      Onwards(View(), StartChild);
      var n := owner.node;
      tasks := tasks[n := tasks[n].(woken := false)];
      stale := stale - {n};
      owner := InPoll(n);
    }

    method ChildReturned(ready: bool)
      requires Valid() && owner.InPoll?
      modifies this
      ensures View() == DoChildReturns(old(View()), ready) && Valid()
    {
      Onwards(View(), ChildReturns(ready));
      polled := polled + 1;
      owner := if ready then Releasing(owner.node, Poller) else PolledPending(owner.node);
    }

    /** The `Poll::Pending` branch: reads `woken`, links the task, and yields or goes on. */
    method RelinkChild()
      requires Valid() && owner.PolledPending?
      modifies this
      ensures Enabled(old(View()), Relink) && View() == DoRelink(old(View())) && Valid()
    {
      OwnersTask(View());
      Onwards(View(), Relink);
      var n := owner.node;
      if tasks[n].woken {
        yielded := yielded + 1;
      }
      tasks := tasks[n := tasks[n].(ref := Listed)];
      listing := listing + [n];
      owner := if yielded >= 2 || polled == len then SelfWaking else Dequeuing;
    }

    /** `cx.waker().wake_by_ref(); return Poll::Pending`. */
    method WakeSelf()
      requires Valid() && owner == SelfWaking
      modifies this, waker
      ensures View() == DoSelfWake(old(View())) && Valid()
    {
      PartsAreSound(View());
      Onwards(View(), SelfWake);
      waker.NoteDirectWake(w);
      owner := Idle(WasPending);
    }

    /** `task.queued.swap(true)` of `release_task`. */
    method BeginRelease()
      requires Valid() && owner.Releasing?
      modifies this
      ensures Enabled(old(View()), ReleaseSwap) && View() == DoReleaseSwap(old(View())) && Valid()
    {
      OwnersTask(View());
      Onwards(View(), ReleaseSwap);
      var n := owner.node;
      var prev := tasks[n].queued;
      tasks := tasks[n := tasks[n].(queued := true)];
      owner := Released(n, prev, owner.caller);
    }

    /** `*task.future.get() = None`, and the reference: kept for the queue, or dropped. */
    method EndRelease()
      requires Valid() && owner.Released?
      modifies this
      ensures Enabled(old(View()), ReleaseDrop) && View() == DoReleaseDrop(old(View())) && Valid()
    {
      OwnersTask(View());
      Onwards(View(), ReleaseDrop);
      var Released(n, prev, caller) := owner;
      if prev {
        tasks := tasks[n := tasks[n].(future := false, ref := OfQueue)];
      } else {
        tasks := tasks[n := tasks[n].(future := false, ref := Freed)];
        frees := frees + [n];
      }
      owner := ReturnsTo(caller);
    }

    method BeginDropping()
      requires Valid() && Enabled(View(), BeginDrop)
      modifies this
      ensures View() == DoBeginDrop(old(View())) && Valid()
    {
      Onwards(View(), BeginDrop);
      owner := Dropping;
    }

    /** One round of the loop of `drop`: a linked task is unlinked and handed to `release_task`. */
    method UnlinkForDrop(n: Node)
      requires Valid() && Enabled(View(), DropNext(n))
      modifies this
      ensures View() == DoDropNext(old(View()), n) && Valid()
    {
      Onwards(View(), DropNext(n));
      tasks := tasks[n := tasks[n].(ref := Polling)];
      owner := Releasing(n, Dropper);
      listing := Unlisted(listing, n);
    }

    method IntoIter()
      requires Valid() && Enabled(View(), BeginIter)
      modifies this
      ensures View() == DoBeginIter(old(View())) && Valid()
    {
      Onwards(View(), BeginIter);
      owner := Iterating;
    }

    /** `IntoIter::next` up to `release_task`: the future of the head is moved out; the unwrap holds. */
    method IterateNext(n: Node)
      requires Valid() && Enabled(View(), IterNext(n))
      modifies this
      ensures old(tasks)[n].future
      ensures View() == DoIterNext(old(View()), n) && Valid()
    {
      ListedHasFuture(View(), n);
      Onwards(View(), IterNext(n));
      tasks := tasks[n := tasks[n].(future := false, ref := Polling)];
      owner := Releasing(n, Iterator);
      listing := Unlisted(listing, n);
    }

    method DropQueueReference()
      requires Valid() && Enabled(View(), DropOwnerRef)
      modifies this
      ensures View() == DoDropOwnerRef(old(View())) && Valid()
    {
      Onwards(View(), DropOwnerRef);
      owner := if threads == map[] then Draining else Gone;
    }

    /** A step of the loop of `ReadyToRunQueue::drop`; the abort is not reachable. */
    method DrainQueue()
      requires Valid() && owner == Draining
      modifies this, queue
      ensures View() == DoDrain(old(View()), Q.ConsumerStep(old(queue.deq))) && Valid()
    {
      ghost var e := Q.ConsumerStep(queue.deq);
      ghost var s := View();
      PartsAreSound(s);
      Onwards(s, Drain(e));
      DrainIsConsistent(s, e);
      StepDequeue(queue);
      if queue.deq.Rest? {
        match queue.deq.r {
          case Data(n) =>
            DrainedTask(s, e, n);
            tasks := tasks[n := tasks[n].(ref := Freed, tok := Nowhere)];
            frees := frees + [n];
          case Empty =>
            owner := Drained;
          case Inconsistent =>
            assert false;                    // abort("inconsistent in drop")
        }
      }
    }

    // ----- any thread -----

    /** `push` up to the call of `enqueue`. */
    method BeginPush(t: Tid, n: Node)
      requires Valid() && Enabled(View(), Push(t, n))
      modifies this
      ensures View() == DoPush(old(View()), t, n) && Valid()
    {
      Onwards(View(), Push(t, n));
      tasks := tasks[n := Task(true, true, false, Listed, With(t))];
      listing := listing + [n];
      pushed := pushed + {n};
      threads := threads[t := Claimed(n, true)];
    }

    /** `wake_by_ref`: the upgrade of the weak reference. */
    method BeginWakeByRef(t: Tid, n: Node)
      requires Valid() && Enabled(View(), Upgrade(t, n))
      modifies this
      ensures View() == DoUpgrade(old(View()), t, n) && Valid()
    {
      Onwards(View(), Upgrade(t, n));
      threads := threads[t := Upgraded(n)];
    }

    method StoreWoken(t: Tid)
      requires Valid() && Enabled(View(), SetWoken(t))
      modifies this
      ensures View() == DoSetWoken(old(View()), t) && Valid()
    {
      Onwards(View(), SetWoken(t));
      var n := threads[t].node;
      tasks := tasks[n := tasks[n].(woken := true)];
      threads := threads[t := WokenSet(n)];
    }

    /** `let prev = arc_self.queued.swap(true)`. */
    method SwapQueuedFlag(t: Tid)
      requires Valid() && Enabled(View(), SwapQueued(t))
      modifies this
      ensures View() == DoSwapQueued(old(View()), t) && Valid()
    {
      Onwards(View(), SwapQueued(t));
      var n := threads[t].node;
      stale := stale + {n};
      if tasks[n].queued {
        threads := threads[t := Leaving];
      } else {
        tasks := tasks[n := tasks[n].(queued := true, tok := With(t))];
        threads := threads[t := Claimed(n, false)];
      }
    }

    /** The three steps of `inner.enqueue(task)`. */
    method EnqueueClear(t: Tid)
      requires Valid() && Enabled(View(), ClearNext(t))
      modifies this, queue
      ensures View() == DoClearNext(old(View()), t) && Valid()
    {
      PartsAreSound(View());
      Onwards(View(), ClearNext(t));
      ClaimIsExclusive(View(), t);
      queue.ClearNext(t, threads[t].node);
      threads := threads[t := Cleared(threads[t].node, threads[t].push)];
    }

    method EnqueueSwap(t: Tid)
      requires Valid() && Enabled(View(), SwapHead(t))
      modifies this, queue
      ensures View() == DoSwapHead(old(View()), t) && Valid()
    {
      ghost var s' := SwapsHead(View(), t);
      var n := threads[t].node;
      queue.SwapHead(t);
      tasks := tasks[n := tasks[n].(tok := InChain)];
      threads := threads[t := Linking(n, threads[t].push)];
      assert View() == s';
    }

    method EnqueueLink(t: Tid)
      requires Valid() && Enabled(View(), LinkPrev(t))
      modifies this, queue
      ensures View() == DoLinkPrev(old(View()), t) && Valid()
    {
      ghost var s' := LinksPrev(View(), t);
      queue.LinkPrev(t);
      threads := if threads[t].push then threads - {t} else threads[t := ToWake];
      assert View() == s';
    }

    /** `inner.waker.wake()`, first step. */
    method WakeParent(t: Tid)
      requires Valid() && Enabled(View(), CallWake(t))
      modifies this, waker
      ensures View() == DoCallWake(old(View()), t) && Valid()
    {
      PartsAreSound(View());
      Onwards(View(), CallWake(t));
      waker.BeginWake(t);
      threads := threads[t := Leaving];
    }

    /** A further step inside `register` or `wake`. */
    method GoOnInWaker(t: Tid)
      requires Valid() && t in waker.pc
      modifies waker
      ensures A.Enabled(old(waker.View()), A.StepOf(old(waker.pc)[t], t))
      ensures View() == DoAwStep(old(View()), A.StepOf(old(waker.pc)[t], t)) && Valid()
    {
      PartsAreSound(View());
      A.StepIsEnabled(waker.View(), t);
      Onwards(View(), AwStep(A.StepOf(waker.pc[t], t)));
      waker.GoOn(t);
    }

    /** The end of `wake_by_ref`: the reference to the queue is dropped. */
    method EndWakeByRef(t: Tid)
      requires Valid() && Enabled(View(), Leave(t))
      modifies this
      ensures View() == DoLeave(old(View()), t) && Valid()
    {
      Onwards(View(), Leave(t));
      threads := threads - {t};
      if owner == Gone && threads == map[] {
        owner := Draining;
      }
    }
  }
}
