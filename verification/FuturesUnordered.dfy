/** `FuturesUnordered` of futures-util/src/stream/futures_unordered/mod.rs together with the
    tasks' `wake_by_ref` (task.rs) and the drop of the ready-to-run queue.

    The state contains the intrusive queue and the `AtomicWaker` as they are modelled in
    their own modules; the list of all tasks is, as TaskLists shows, a sequence with an exact
    length.  One owner polls, pushes and drops; any number of other threads push and wake,
    step by step, between any two steps of the owner.  `poll_next` and `drop` need exclusive
    access, so they start only when no push is in progress. */
module FuturesUnordereds {
  import opened Runs
  import opened Chains
  import Q = ReadyToRunQueues
  import A = AtomicWakers

  /** The thread that has exclusive access to the set. */
  const OWNER: Tid := 0

  /** Who holds the one strong reference of a task that is not a waker's. */
  datatype Ref = Listed | Polling | OfQueue | Freed

  /** Where the right to have the task in the ready-to-run queue is: nowhere, with a thread
      that has claimed the task and not yet swapped it in, in the chain, or with the owner
      that has dequeued it and not yet reset its flag. */
  datatype Token = Nowhere | With(t: Tid) | InChain | WithOwner

  /** `queued`, whether `future` is still there, `woken`; the rest is bookkeeping. */
  datatype Task = Task(queued: bool, future: bool, woken: bool, ref: Ref, tok: Token)

  datatype PollResult = NotPolled | WasPending | WasNone | WasSome

  /** Where `release_task` returns to: `poll_next`, the loop of `drop`, or `IntoIter::next`. */
  datatype Caller = Poller | Dropper | Iterator

  /** The owner's position in `poll_next`, `drop` or an owning iterator. */
  datatype OwnerPc =
    | Idle(r: PollResult)
    | Registering                        // inside waker.register(cx.waker())
    | Dequeuing
    | Got(node: Node)                    // dequeue returned Data(node)
    | Unlinked(node: Node)               // unlinked; queued.swap(false) comes next
    | Reset(node: Node)                  // flag reset; woken.store(false) and the poll come next
    | InPoll(node: Node)                 // the child's poll is running
    | PolledPending(node: Node)
    | Releasing(node: Node, caller: Caller)  // release_task: queued.swap(true) comes next
    | Released(node: Node, prev: bool, caller: Caller)
    | SelfWaking                         // cx.waker().wake_by_ref() before returning Pending
    | Iterating                          // the set is inside an IntoIter
    | Dropping                           // the loop of FuturesUnordered::drop
    | Gone                               // the owner's reference to the queue is dropped
    | Draining                           // ReadyToRunQueue::drop, run by whoever held the last reference
    | Drained
    | Aborted                            // abort("inconsistent in drop")

  /** A thread inside `wake_by_ref` (push == false) or `push`. */
  datatype ThreadPc =
    | Upgraded(node: Node)               // holds a reference to the queue
    | WokenSet(node: Node)
    | Claimed(node: Node, push: bool)    // has set `queued` first; enqueue comes next
    | Cleared(node: Node, push: bool)    // inside enqueue, before the head swap
    | Linking(node: Node, push: bool)    // inside enqueue, after the head swap
    | ToWake                             // inner.waker.wake() comes next
    | Leaving                            // inside or after wake(); drops its reference to the queue

  datatype State = State(
    q: Q.State,
    aw: A.State,
    tasks: map<Node, Task>,
    listing: seq<Node>,                  // the linked tasks, oldest first; head_all is the last one
    owner: OwnerPc,
    threads: map<Tid, ThreadPc>,
    w: Waker,                            // the waker of the current or last poll_next
    len: nat, polled: nat, yielded: nat,
    stale: set<Node>,                    // woken (flag swapped) since their last poll began
    pushed: set<Node>,                   // pushed since the last poll_next returned
    frees: seq<Node>)                    // every release of a task's one list reference, in order

  const Init := State(Q.Init, A.Init, map[], [], Idle(NotPolled), map[], 0, 0, 0, 0, {}, {}, [])

  function All(s: State): set<Node> { set n | n in s.tasks && s.tasks[n].ref == Listed }

  /** `head_all`. */
  predicate IsHead(s: State, n: Node) { s.listing != [] && n == s.listing[|s.listing| - 1] }

  /** The listing after `unlink(n)`. */
  function Unlisted(q: seq<Node>, n: Node): seq<Node> {
    if q == [] then []
    else if q[|q| - 1] == n then q[..|q| - 1]
    else Unlisted(q[..|q| - 1], n) + [q[|q| - 1]]
  }

  predicate IsPush(p: ThreadPc) { (p.Claimed? || p.Cleared? || p.Linking?) && p.push }

  ghost predicate NoPush(s: State) { forall t :: t in s.threads ==> !IsPush(s.threads[t]) }

  function Put(s: State, n: Node, k: Task): State { s.(tasks := s.tasks[n := k]) }

  function At(s: State, t: Tid, p: ThreadPc): State { s.(threads := s.threads[t := p]) }

  // ----- the owner -----

  /** `len()` and the first step of `register`. */
  function DoBeginPoll(s: State, w: Waker): State {
    s.(len := |All(s)|, polled := 0, yielded := 0, w := w, pushed := {},
    aw := A.DoRegisterCas(s.aw, OWNER, w), owner := Registering)
  }

  function DoEnterLoop(s: State): State { s.(owner := Dequeuing) }

  /** One step of `dequeue`, and the branch on its result. */
  function DoConsume(s: State, e: Q.Step): State
    requires Q.Enabled(s.q, e)
  {
    var q' := Q.Apply(s.q, e);
    var s1 := s.(q := q');
    match q'.deq
    case Rest(Data(n)) =>
      if n in s.tasks then s1.(owner := Got(n), tasks := s.tasks[n := s.tasks[n].(tok := WithOwner)]) else s1
    case Rest(Empty) => s1.(owner := Idle(if All(s) == {} then WasNone else WasPending))
    case Rest(Inconsistent) => s1.(owner := SelfWaking)
    case _ => s1
  }

  /** A task whose future is gone is freed; otherwise it is unlinked. */
  function DoInspect(s: State): State
    requires s.owner.Got? && s.owner.node in s.tasks
  {
    var n := s.owner.node;
    var k := s.tasks[n];
    if !k.future then
      Put(s, n, k.(ref := Freed, tok := Nowhere)).(owner := Dequeuing, frees := s.frees + [n])
    else
      Put(s, n, k.(ref := Polling)).(owner := Unlinked(n), listing := Unlisted(s.listing, n))
  }

  /** `queued.swap(false)`. */
  function DoResetQueued(s: State): State
    requires s.owner.Unlinked? && s.owner.node in s.tasks
  {
    var n := s.owner.node;
    Put(s, n, s.tasks[n].(queued := false, tok := Nowhere)).(owner := Reset(n))
  }

  /** `woken.store(false)`, and the child's poll begins. */
  function DoStartChild(s: State): State
    requires s.owner.Reset? && s.owner.node in s.tasks
  {
    var n := s.owner.node;
    Put(s, n, s.tasks[n].(woken := false)).(owner := InPoll(n), stale := s.stale - {n})
  }

  function DoChildReturns(s: State, ready: bool): State
    requires s.owner.InPoll?
  {
    s.(polled := s.polled + 1, owner := if ready then Releasing(s.owner.node, Poller) else PolledPending(s.owner.node))
  }

  /** The child is linked again; the owner goes on, or yields. */
  function DoRelink(s: State): State
    requires s.owner.PolledPending? && s.owner.node in s.tasks
  {
    var n := s.owner.node;
    var yielded := s.yielded + if s.tasks[n].woken then 1 else 0;
    Put(s, n, s.tasks[n].(ref := Listed)).(yielded := yielded, listing := s.listing + [n],
    owner := if yielded >= 2 || s.polled == s.len then SelfWaking else Dequeuing)
  }

  function DoSelfWake(s: State): State {
    s.(aw := A.DirectWake(s.aw, s.w), owner := Idle(WasPending))
  }

  /** `queued.swap(true)` of `release_task`. */
  function DoReleaseSwap(s: State): State
    requires s.owner.Releasing? && s.owner.node in s.tasks
  {
    var n := s.owner.node;
    Put(s, n, s.tasks[n].(queued := true)).(owner := Released(n, s.tasks[n].queued, s.owner.caller))
  }

  function ReturnsTo(caller: Caller): OwnerPc {
    match caller
    case Poller => Idle(WasSome)
    case Dropper => Dropping
    case Iterator => Iterating
  }

  /** The rest of `release_task`: the future is dropped, and the reference with it unless the
      task is still queued. */
  function DoReleaseDrop(s: State): State
    requires s.owner.Released? && s.owner.node in s.tasks
  {
    var Released(n, prev, caller) := s.owner;
    Put(s, n, s.tasks[n].(future := false, ref := if prev then OfQueue else Freed)).(
    owner := ReturnsTo(caller), frees := if prev then s.frees else s.frees + [n])
  }

  function DoBeginDrop(s: State): State { s.(owner := Dropping) }

  function DoDropNext(s: State, n: Node): State
    requires n in s.tasks
  {
    Put(s, n, s.tasks[n].(ref := Polling)).(owner := Releasing(n, Dropper), listing := Unlisted(s.listing, n))
  }

  function DoBeginIter(s: State): State { s.(owner := Iterating) }

  /** `IntoIter::next` on a non-empty list: the future is moved out of the head, which is unlinked. */
  function DoIterNext(s: State, n: Node): State
    requires n in s.tasks
  {
    Put(s, n, s.tasks[n].(future := false, ref := Polling)).(
    owner := Releasing(n, Iterator), listing := Unlisted(s.listing, n))
  }

  function DoDropOwnerRef(s: State): State {
    s.(owner := if s.threads == map[] then Draining else Gone)
  }

  /** One step of `dequeue` inside `ReadyToRunQueue::drop`, and the branch on its result. */
  function DoDrain(s: State, e: Q.Step): State
    requires Q.Enabled(s.q, e)
  {
    var q' := Q.Apply(s.q, e);
    var s1 := s.(q := q');
    match q'.deq
    case Rest(Data(n)) =>
      if n in s.tasks then s1.(tasks := s.tasks[n := s.tasks[n].(ref := Freed, tok := Nowhere)], frees := s.frees + [n]) else s1
    case Rest(Empty) => s1.(owner := Drained)
    case Rest(Inconsistent) => s1.(owner := Aborted)
    case _ => s1
  }

  // ----- other threads -----

  function DoPush(s: State, t: Tid, n: Node): State {
    At(s, t, Claimed(n, true)).(
    tasks := s.tasks[n := Task(true, true, false, Listed, With(t))], listing := s.listing + [n], pushed := s.pushed + {n})
  }

  /** Somebody still holds a reference to the queue. */
  predicate QueueAlive(s: State) { s.owner != Draining && s.owner != Drained && s.owner != Aborted }

  /** `ready_to_run_queue.upgrade()` when it succeeds; when it fails `wake_by_ref` does nothing. */
  function DoUpgrade(s: State, t: Tid, n: Node): State { At(s, t, Upgraded(n)) }

  function DoSetWoken(s: State, t: Tid): State
    requires t in s.threads && s.threads[t].Upgraded? && s.threads[t].node in s.tasks
  {
    var n := s.threads[t].node;
    At(Put(s, n, s.tasks[n].(woken := true)), t, WokenSet(n))
  }

  /** `queued.swap(true)` of `wake_by_ref`. */
  function DoSwapQueued(s: State, t: Tid): State
    requires t in s.threads && s.threads[t].WokenSet? && s.threads[t].node in s.tasks
  {
    var n := s.threads[t].node;
    var k := s.tasks[n];
    var s1 := s.(stale := s.stale + {n});
    if k.queued then At(s1, t, Leaving)
    else At(Put(s1, n, k.(queued := true, tok := With(t))), t, Claimed(n, false))
  }

  function DoClearNext(s: State, t: Tid): State
    requires t in s.threads && s.threads[t].Claimed?
  {
    At(s, t, Cleared(s.threads[t].node, s.threads[t].push)).(q := Q.DoClearNext(s.q, t, s.threads[t].node))
  }

  function DoSwapHead(s: State, t: Tid): State
    requires t in s.threads && s.threads[t].Cleared? && s.threads[t].node in s.tasks
    requires t in s.q.enq && s.q.enq[t].Cleared?
  {
    var n := s.threads[t].node;
    At(Put(s, n, s.tasks[n].(tok := InChain)), t, Linking(n, s.threads[t].push)).(q := Q.DoSwapHead(s.q, t))
  }

  function DoLinkPrev(s: State, t: Tid): State
    requires t in s.threads && s.threads[t].Linking? && t in s.q.enq && s.q.enq[t].Swapped?
  {
    var s1 := if s.threads[t].push then s.(threads := s.threads - {t}) else At(s, t, ToWake);
    s1.(q := Q.DoLinkPrev(s.q, t))
  }

  /** `inner.waker.wake()` begins. */
  function DoCallWake(s: State, t: Tid): State { At(s, t, Leaving).(aw := A.DoWakeFetchOr(s.aw, t)) }

  /** A further step inside `register` or `wake`. */
  function DoAwStep(s: State, e: A.Step): State
    requires A.Enabled(s.aw, e)
  {
    s.(aw := A.Apply(s.aw, e))
  }

  /** The thread drops its reference to the queue; the last one drains it. */
  function DoLeave(s: State, t: Tid): State {
    var s1 := s.(threads := s.threads - {t});
    if s.owner.Gone? && s1.threads == map[] then s1.(owner := Draining) else s1
  }

  datatype Step =
    | BeginPoll(w: Waker) | EnterLoop | Consume(e: Q.Step) | Inspect | ResetQueued | StartChild
    | ChildReturns(ready: bool) | Relink | SelfWake | ReleaseSwap | ReleaseDrop
    | BeginIter | IterNext(n: Node) | BeginDrop | DropNext(n: Node) | DropOwnerRef | Drain(e: Q.Step)
    | Push(t: Tid, n: Node) | Upgrade(t: Tid, n: Node) | SetWoken(t: Tid) | SwapQueued(t: Tid)
    | ClearNext(t: Tid) | SwapHead(t: Tid) | LinkPrev(t: Tid) | CallWake(t: Tid) | AwStep(a: A.Step) | Leave(t: Tid)

  /** The owner can take step e of `dequeue`, in `poll_next` ... */
  predicate Dequeues(s: State, e: Q.Step) { s.owner == Dequeuing && Q.IsConsumerStep(e) && Q.Enabled(s.q, e) }

  /** ... or while the queue is dropped. */
  predicate Drains(s: State, e: Q.Step) { s.owner == Draining && Q.IsConsumerStep(e) && Q.Enabled(s.q, e) }

  ghost predicate Enabled(s: State, e: Step) {
    match e
    case BeginPoll(w) => s.owner.Idle? && NoPush(s) && OWNER !in s.aw.pc
    case EnterLoop => s.owner == Registering && OWNER !in s.aw.pc
    case Consume(qe) => Dequeues(s, qe)
    case Inspect => s.owner.Got? && s.owner.node in s.tasks
    case ResetQueued => s.owner.Unlinked? && s.owner.node in s.tasks
    case StartChild => s.owner.Reset? && s.owner.node in s.tasks
    case ChildReturns(_) => s.owner.InPoll?
    case Relink => s.owner.PolledPending? && s.owner.node in s.tasks
    case SelfWake => s.owner == SelfWaking
    case ReleaseSwap => s.owner.Releasing? && s.owner.node in s.tasks
    case ReleaseDrop => s.owner.Released? && s.owner.node in s.tasks
    case BeginIter => s.owner.Idle? && NoPush(s)
    case IterNext(n) => s.owner == Iterating && n in All(s) && IsHead(s, n)
    case BeginDrop => (s.owner.Idle? || s.owner == Iterating) && NoPush(s)
    case DropNext(n) => s.owner == Dropping && n in All(s) && IsHead(s, n)
    case DropOwnerRef => s.owner == Dropping && All(s) == {}
    case Drain(qe) => Drains(s, qe)
    case Push(t, n) => t != OWNER && t !in s.threads && s.owner.Idle? && n !in s.tasks && n != Q.STUB
    case Upgrade(t, n) => t != OWNER && t !in s.threads && n in s.tasks && QueueAlive(s)
    case SetWoken(t) => t in s.threads && s.threads[t].Upgraded? && s.threads[t].node in s.tasks
    case SwapQueued(t) => t in s.threads && s.threads[t].WokenSet? && s.threads[t].node in s.tasks
    case ClearNext(t) => t in s.threads && s.threads[t].Claimed?
    case SwapHead(t) => && t in s.threads && s.threads[t].Cleared? && s.threads[t].node in s.tasks
                        && t in s.q.enq && s.q.enq[t].Cleared?
    case LinkPrev(t) => t in s.threads && s.threads[t].Linking? && t in s.q.enq && s.q.enq[t].Swapped?
    case CallWake(t) => t in s.threads && s.threads[t].ToWake? && t !in s.aw.pc
    case AwStep(a) => !a.RegisterCas? && !a.WakeFetchOr? && A.Enabled(s.aw, a)
    case Leave(t) => t in s.threads && s.threads[t].Leaving? && t !in s.aw.pc
  }

  function Apply(s: State, e: Step): State
    requires Enabled(s, e)
  {
    match e
    case BeginPoll(w) => DoBeginPoll(s, w)
    case EnterLoop => DoEnterLoop(s)
    case Consume(qe) => DoConsume(s, qe)
    case Inspect => DoInspect(s)
    case ResetQueued => DoResetQueued(s)
    case StartChild => DoStartChild(s)
    case ChildReturns(ready) => DoChildReturns(s, ready)
    case Relink => DoRelink(s)
    case SelfWake => DoSelfWake(s)
    case ReleaseSwap => DoReleaseSwap(s)
    case ReleaseDrop => DoReleaseDrop(s)
    case BeginIter => DoBeginIter(s)
    case IterNext(n) => DoIterNext(s, n)
    case BeginDrop => DoBeginDrop(s)
    case DropNext(n) => DoDropNext(s, n)
    case DropOwnerRef => DoDropOwnerRef(s)
    case Drain(qe) => DoDrain(s, qe)
    case Push(t, n) => DoPush(s, t, n)
    case Upgrade(t, n) => DoUpgrade(s, t, n)
    case SetWoken(t) => DoSetWoken(s, t)
    case SwapQueued(t) => DoSwapQueued(s, t)
    case ClearNext(t) => DoClearNext(s, t)
    case SwapHead(t) => DoSwapHead(s, t)
    case LinkPrev(t) => DoLinkPrev(s, t)
    case CallWake(t) => DoCallWake(s, t)
    case AwStep(a) => DoAwStep(s, a)
    case Leave(t) => DoLeave(s, t)
  }

  ghost predicate IsInit(s: State) { s == Init }

  ghost predicate Next(s: State, e: Step, s': State) {
    Enabled(s, e) && s' == Apply(s, e)
  }

  // ----- the invariant: flags and references -----

  function NodeOf(pc: OwnerPc): Option<Node> {
    match pc
    case Got(n) => Some(n)
    case Unlinked(n) => Some(n)
    case Reset(n) => Some(n)
    case InPoll(n) => Some(n)
    case PolledPending(n) => Some(n)
    case Releasing(n, _) => Some(n)
    case Released(n, _, _) => Some(n)
    case _ => None
  }

  /** A task the owner is not busy with.  In particular `queued` is false only for a task that
      is linked, is not in the chain, and that no thread has claimed. */
  predicate RestingOk(k: Task) {
    && k.ref != Polling && k.tok != WithOwner
    && (k.queued <==> k.tok != Nowhere || k.ref == Freed)
    && (k.future <==> k.ref == Listed)
    && (k.ref == OfQueue ==> k.tok != Nowhere)
    && (k.ref == Freed ==> k.tok == Nowhere)
  }

  /** The task the owner is busy with. */
  predicate BusyOk(k: Task, pc: OwnerPc) {
    match pc
    case Got(_) => k.tok == WithOwner && k.queued && (k.ref == Listed || k.ref == OfQueue) && (k.future <==> k.ref == Listed)
    case Unlinked(_) => k.tok == WithOwner && k.queued && k.ref == Polling && k.future
    case Releasing(_, caller) => && k.ref == Polling && (k.future <==> !caller.Iterator?)
                             && k.tok != WithOwner && (k.queued <==> k.tok != Nowhere)
    case Released(_, prev, caller) => && k.ref == Polling && (k.future <==> !caller.Iterator?)
                                  && k.queued && k.tok != WithOwner && (prev <==> k.tok != Nowhere)
    case _ => k.ref == Polling && k.future && k.tok != WithOwner && (k.queued <==> k.tok != Nowhere)
  }

  predicate TaskOk(k: Task, n: Node, pc: OwnerPc) {
    if NodeOf(pc) == Some(n) then BusyOk(k, pc) else RestingOk(k)
  }

  ghost predicate Tasks(tasks: map<Node, Task>, pc: OwnerPc) {
    && (forall n :: n in tasks ==> TaskOk(tasks[n], n, pc))
    && (NodeOf(pc).Some? ==> NodeOf(pc).value in tasks)
    && Q.STUB !in tasks
  }

  function ClaimOf(p: ThreadPc): Option<Node> {
    match p
    case Claimed(n, _) => Some(n)
    case Cleared(n, _) => Some(n)
    case _ => None
  }

  /** The token says truly where the task's place in the queue is. */
  predicate TokenOk(k: Task, n: Node, threads: map<Tid, ThreadPc>, order: seq<Node>) {
    && (n in order <==> k.tok == InChain)
    && (k.tok.With? ==> k.tok.t in threads && ClaimOf(threads[k.tok.t]) == Some(n))
  }

  ghost predicate Tokens(tasks: map<Node, Task>, threads: map<Tid, ThreadPc>, order: seq<Node>) {
    && (forall n :: n in tasks ==> TokenOk(tasks[n], n, threads, order))
    && (forall n :: n in order && n != Q.STUB ==> n in tasks)
  }

  predicate ThreadOk(p: ThreadPc, t: Tid, tasks: map<Node, Task>, enq: map<Tid, Q.EnqueuePc>, pc: OwnerPc) {
    && t != OWNER
    && (p.Upgraded? || p.WokenSet? ==> p.node in tasks)
    && (ClaimOf(p).Some? ==> p.node in tasks && tasks[p.node].tok == With(t))
    && (p.Cleared? ==> t in enq && enq[t] == Q.Cleared(p.node))
    && (p.Linking? ==> t in enq && enq[t].Swapped?)
    && (t in enq ==> p.Cleared? || p.Linking?)
    && (IsPush(p) ==> pc.Idle?)
  }

  ghost predicate Threads(threads: map<Tid, ThreadPc>, tasks: map<Node, Task>, enq: map<Tid, Q.EnqueuePc>, pc: OwnerPc) {
    && (forall t :: t in threads ==> ThreadOk(threads[t], t, tasks, enq, pc))
    && (forall t :: t in enq ==> t in threads)
  }

  /** The owner registers; every other thread inside the AtomicWaker is inside `wake`. */
  ghost predicate Wakers(awpc: map<Tid, A.Pc>, threads: map<Tid, ThreadPc>, pc: OwnerPc) {
    forall t :: t in awpc ==>
      if t == OWNER then pc == Registering && A.InRegister(awpc[t])
      else t in threads && threads[t].Leaving? && !A.InRegister(awpc[t])
  }

  ghost predicate OwnerOk(s: State) {
    && (s.owner != Dequeuing && s.owner != Draining ==> s.q.deq.Rest?)
    && (!QueueAlive(s) ==> s.threads == map[])
    && (s.owner == Draining ==> (s.q.deq == Q.CheckHead ==> |s.q.order| == 1))
    && (s.owner == Draining || s.owner == Drained || s.owner == Gone ==> All(s) == {})
    && s.owner != Aborted
  }

  ghost predicate Structure(s: State) {
    && Q.Inv(s.q) && A.Inv(s.aw)
    && Tasks(s.tasks, s.owner)
    && Tokens(s.tasks, s.threads, s.q.order)
    && Threads(s.threads, s.tasks, s.q.enq, s.owner)
    && Wakers(s.aw.pc, s.threads, s.owner)
    && OwnerOk(s)
  }

  /** Changing one task, and the owner from or to that task, leaves the others alone. */
  lemma TasksPut(tasks: map<Node, Task>, pc: OwnerPc, n: Node, k: Task, pc': OwnerPc)
    requires Tasks(tasks, pc) && n in tasks
    requires NodeOf(pc) == None || NodeOf(pc) == Some(n)
    requires NodeOf(pc') == None || NodeOf(pc') == Some(n)
    requires TaskOk(k, n, pc')
    ensures Tasks(tasks[n := k], pc')
  {
    var tasks' := tasks[n := k];
    forall m | m in tasks' ensures TaskOk(tasks'[m], m, pc') {
      if m != n { assert TaskOk(tasks[m], m, pc); }
    }
  }

  /** A task whose token does not change. */
  lemma TokensPut(s: State, n: Node, k: Task)
    requires Tokens(s.tasks, s.threads, s.q.order) && n in s.tasks
    requires k.tok == s.tasks[n].tok
    ensures Tokens(s.tasks[n := k], s.threads, s.q.order)
  {
    var tasks' := s.tasks[n := k];
    forall m | m in tasks' ensures TokenOk(tasks'[m], m, s.threads, s.q.order) {
      assert TokenOk(s.tasks[m], m, s.threads, s.q.order);
    }
  }

  /** Threads depend on a task only through its token, and on the owner only while pushing. */
  lemma ThreadsPut(s: State, n: Node, k: Task, pc': OwnerPc)
    requires Threads(s.threads, s.tasks, s.q.enq, s.owner) && n in s.tasks
    requires !s.tasks[n].tok.With? || k.tok == s.tasks[n].tok
    requires s.owner.Idle? ==> pc'.Idle? || NoPush(s)
    ensures Threads(s.threads, s.tasks[n := k], s.q.enq, pc')
  {
    forall t | t in s.threads ensures ThreadOk(s.threads[t], t, s.tasks[n := k], s.q.enq, pc') {
      assert ThreadOk(s.threads[t], t, s.tasks, s.q.enq, s.owner);
    }
  }

  /** Owner steps that neither run the queue nor the AtomicWaker and touch at most one task. */
  lemma KeepsOwnerLocal(s: State, s': State, n: Node, k: Task)
    requires Structure(s) && n in s.tasks
    requires s'.q == s.q && s'.aw == s.aw && s'.threads == s.threads
    requires s'.tasks == s.tasks[n := k]
    requires NodeOf(s.owner) == None || NodeOf(s.owner) == Some(n)
    requires NodeOf(s'.owner) == None || NodeOf(s'.owner) == Some(n)
    requires TaskOk(s'.tasks[n], n, s'.owner)
    requires s'.tasks[n].tok == s.tasks[n].tok || (s.tasks[n].tok == WithOwner && s'.tasks[n].tok == Nowhere)
    requires s.owner != Dequeuing && s.owner != Draining && s.owner != Registering && !s.owner.Idle?
    requires QueueAlive(s) && QueueAlive(s') && s'.owner != Gone
    ensures Structure(s')
  {
    TasksPut(s.tasks, s.owner, n, k, s'.owner);
    ThreadsPut(s, n, k, s'.owner);
    forall m | m in s'.tasks ensures TokenOk(s'.tasks[m], m, s'.threads, s'.q.order) {
      assert TokenOk(s.tasks[m], m, s.threads, s.q.order);
    }
    assert OWNER !in s.aw.pc;
  }

  /** A step of the owner on the task it is busy with ... */
  predicate IsBusyStep(e: Step) { e.Inspect? || e.ResetQueued? || e.StartChild? || e.Relink? || e.ReleaseSwap? || e.ReleaseDrop? }

  lemma BusyStep(s: State, e: Step, n: Node)
    requires Enabled(s, e) && IsBusyStep(e) && NodeOf(s.owner) == Some(n) && TaskOk(s.tasks[n], n, s.owner)
    ensures var s' := Apply(s, e);
            && s'.q == s.q && s'.aw == s.aw && s'.threads == s.threads && n in s'.tasks && s'.tasks == s.tasks[n := s'.tasks[n]]
            && TaskOk(s'.tasks[n], n, s'.owner) && (NodeOf(s'.owner) == None || NodeOf(s'.owner) == Some(n))
            && (s'.tasks[n].tok == s.tasks[n].tok || (s.tasks[n].tok == WithOwner && s'.tasks[n].tok == Nowhere))
            && QueueAlive(s') && s'.owner != Gone
  {
    match e
    case Inspect => case ResetQueued => case StartChild => case Relink => case ReleaseSwap => case ReleaseDrop =>
  }

  lemma StructureOwnerTask(s: State, e: Step)
    requires Structure(s) && Enabled(s, e) && IsBusyStep(e)
    ensures Structure(Apply(s, e))
  {
    var s' := Apply(s, e);
    var n := s.owner.node;
    assert TaskOk(s.tasks[n], n, s.owner);
    BusyStep(s, e, n);
    KeepsOwnerLocal(s, s', n, s'.tasks[n]);
  }

  /** The owner moves between positions at which it is busy with no task. */
  lemma OwnerFrame(tasks: map<Node, Task>, threads: map<Tid, ThreadPc>, enq: map<Tid, Q.EnqueuePc>, pc: OwnerPc, pc': OwnerPc)
    requires Tasks(tasks, pc) && Threads(threads, tasks, enq, pc)
    requires NodeOf(pc) == None && NodeOf(pc') == None
    requires pc'.Idle? || forall t :: t in threads ==> !IsPush(threads[t])
    ensures Tasks(tasks, pc')
    ensures Threads(threads, tasks, enq, pc')
  {
    forall n | n in tasks ensures TaskOk(tasks[n], n, pc') { assert TaskOk(tasks[n], n, pc); }
    forall t | t in threads ensures ThreadOk(threads[t], t, tasks, enq, pc') {
      assert ThreadOk(threads[t], t, tasks, enq, pc);
    }
  }

  /** Pushes are in progress only while the owner is idle. */
  lemma NoPushUnlessIdle(s: State)
    requires Structure(s) && !s.owner.Idle?
    ensures NoPush(s)
  {
    forall t | t in s.threads ensures !IsPush(s.threads[t]) {
      assert ThreadOk(s.threads[t], t, s.tasks, s.q.enq, s.owner);
    }
  }

  lemma StructureOwnerMoves(s: State, e: Step)
    requires Structure(s) && Enabled(s, e)
    requires e.EnterLoop? || e.BeginIter? || e.BeginDrop? || e.DropOwnerRef?
    ensures Structure(Apply(s, e))
  {
    if !s.owner.Idle? { NoPushUnlessIdle(s); }
    OwnerFrame(s.tasks, s.threads, s.q.enq, s.owner, Apply(s, e).owner);
  }

  lemma StructureChildReturns(s: State, ready: bool)
    requires Structure(s) && Enabled(s, ChildReturns(ready))
    ensures Structure(DoChildReturns(s, ready))
  {
    var n := s.owner.node;
    assert TaskOk(s.tasks[n], n, s.owner);
    assert s.tasks[n := s.tasks[n]] == s.tasks;
    KeepsOwnerLocal(s, DoChildReturns(s, ready), n, s.tasks[n]);
  }

  lemma StructureTakeNext(s: State, e: Step)
    requires Structure(s) && Enabled(s, e) && (e.DropNext? || e.IterNext?)
    ensures Structure(Apply(s, e))
  {
    var s', n := Apply(s, e), e.n;
    assert TaskOk(s.tasks[n], n, s.owner);
    KeepsOwnerLocal(s, s', n, s'.tasks[n]);
  }

  lemma StructureBeginPoll(s: State, w: Waker)
    requires Structure(s) && Enabled(s, BeginPoll(w))
    ensures Structure(DoBeginPoll(s, w))
  {
    A.KeepsRegisterCas(s.aw, OWNER, w);
    OwnerFrame(s.tasks, s.threads, s.q.enq, s.owner, Registering);
  }

  lemma StructureSelfWake(s: State)
    requires Structure(s) && Enabled(s, SelfWake)
    ensures Structure(DoSelfWake(s))
  {
    A.KeepsDirectWake(s.aw, s.w);
    OwnerFrame(s.tasks, s.threads, s.q.enq, s.owner, Idle(WasPending));
  }

  /** What one step of `dequeue` does to the tokens. */
  lemma ConsumedTokens(s: State, e: Q.Step, n: Node, k: Task)
    requires Structure(s) && Q.IsConsumerStep(e) && Q.Enabled(s.q, e) && Q.Apply(s.q, e).deq == Q.Rest(Q.Data(n))
    requires !k.tok.With? && k.tok != InChain
    ensures n in s.tasks && s.tasks[n].tok == InChain
    ensures Tokens(s.tasks[n := k], s.threads, Q.Apply(s.q, e).order)
    ensures Q.Apply(s.q, e).enq == s.q.enq
  {
    var q' := Q.Apply(s.q, e);
    Q.HandsOutOldest(s.q, e, n);
    Q.ConsumerMembership(s.q, e, n);
    Q.NonStubMember(s.q.order, n);
    assert n in s.q.order;
    assert TokenOk(s.tasks[n], n, s.threads, s.q.order);
    var tasks' := s.tasks[n := k];
    forall m | m in tasks' ensures TokenOk(tasks'[m], m, s.threads, q'.order) {
      assert TokenOk(s.tasks[m], m, s.threads, s.q.order);
      Q.ConsumerMembership(s.q, e, m);
    }
    forall m | m in q'.order && m != Q.STUB ensures m in s.tasks { Q.ConsumerMembership(s.q, e, m); }
  }

  /** `dequeue` has returned a node. */
  predicate HandsOut(d: Q.DequeuePc) { d.Rest? && d.r.Data? }

  /** The other steps of `dequeue` leave the tokens. */
  lemma UnconsumedTokens(s: State, e: Q.Step)
    requires Structure(s) && Q.IsConsumerStep(e) && Q.Enabled(s.q, e)
    requires !HandsOut(Q.Apply(s.q, e).deq)
    ensures Tokens(s.tasks, s.threads, Q.Apply(s.q, e).order)
    ensures Q.Apply(s.q, e).enq == s.q.enq
  {
    var q' := Q.Apply(s.q, e);
    forall m | m in s.tasks ensures TokenOk(s.tasks[m], m, s.threads, q'.order) {
      assert TokenOk(s.tasks[m], m, s.threads, s.q.order);
      Q.ConsumerMembership(s.q, e, m);
    }
    forall m | m in q'.order && m != Q.STUB ensures m in s.tasks { Q.ConsumerMembership(s.q, e, m); }
    Q.ConsumerMembership(s.q, e, 1);
  }

  lemma StructureConsumeData(s: State, e: Q.Step, n: Node)
    requires Dequeues(s, e) && Structure(s) && Q.Apply(s.q, e).deq == Q.Rest(Q.Data(n))
    ensures n in s.tasks && s.tasks[n].tok == InChain
    ensures Structure(DoConsume(s, e))
  {
    var s' := DoConsume(s, e);
    Q.KeepsInv(s.q, e);
    var k := if n in s.tasks then s.tasks[n].(tok := WithOwner) else Task(true, false, false, Freed, WithOwner);
    ConsumedTokens(s, e, n, k);
    assert TaskOk(s.tasks[n], n, s.owner);
    TasksPut(s.tasks, s.owner, n, k, Got(n));
    ThreadsPut(s, n, k, Got(n));
    assert OwnerOk(s');
  }

  lemma StructureConsumeOther(s: State, e: Q.Step)
    requires Dequeues(s, e) && Structure(s)
    requires !HandsOut(Q.Apply(s.q, e).deq)
    ensures Structure(DoConsume(s, e))
  {
    var s' := DoConsume(s, e);
    Q.KeepsInv(s.q, e);
    UnconsumedTokens(s, e);
    assert s' == s.(q := Q.Apply(s.q, e), owner := s'.owner);
    assert s'.owner == Dequeuing || (s'.q.deq.Rest? && (s'.owner.Idle? || s'.owner == SelfWaking));
    QueueMoves(s, s');
  }

  lemma QueueMoves(s: State, s': State)
    requires Structure(s) && s.owner == Dequeuing && s' == s.(q := s'.q, owner := s'.owner)
    requires Q.Inv(s'.q) && s'.q.enq == s.q.enq && Tokens(s.tasks, s.threads, s'.q.order)
    requires s'.owner == Dequeuing || (s'.q.deq.Rest? && (s'.owner.Idle? || s'.owner == SelfWaking))
    ensures Structure(s')
  {
    NoPushUnlessIdle(s);
    OwnerFrame(s.tasks, s.threads, s.q.enq, s.owner, s'.owner);
  }

  lemma StructureConsume(s: State, e: Q.Step)
    requires Dequeues(s, e) && Structure(s)
    ensures Structure(DoConsume(s, e))
  {
    var d := Q.Apply(s.q, e).deq;
    if HandsOut(d) {
      StructureConsumeData(s, e, d.r.node);
    } else {
      StructureConsumeOther(s, e);
    }
  }

  /** With nobody else around, a step of `dequeue` never ends inconsistent. */
  lemma QuietNeverInconsistent(q: Q.State, e: Q.Step)
    requires Q.Inv(q) && Q.IsConsumerStep(e) && Q.Enabled(q, e) && q.enq == map[]
    requires q.deq == Q.CheckHead ==> |q.order| == 1
    ensures Q.Apply(q, e).deq != Q.Rest(Q.Inconsistent)
    ensures Q.Apply(q, e).deq == Q.CheckHead ==> |Q.Apply(q, e).order| == 1
  {
    if !q.deq.LinkStub? { Q.QuietLinks(q); }
  }

  lemma DrainQuiet(s: State, e: Q.Step)
    requires Drains(s, e) && Structure(s)
    ensures Q.Apply(s.q, e).deq != Q.Rest(Q.Inconsistent)
    ensures Q.Apply(s.q, e).deq == Q.CheckHead ==> |Q.Apply(s.q, e).order| == 1
  {
    assert forall t :: t in s.q.enq ==> t in s.threads;
    QuietNeverInconsistent(s.q, e);
  }

  lemma DrainHandsOut(s: State, e: Q.Step, n: Node)
    requires Drains(s, e) && Structure(s) && Q.Apply(s.q, e).deq == Q.Rest(Q.Data(n))
    ensures n in s.tasks && s.tasks[n].tok == InChain && s.tasks[n].ref == OfQueue && !s.tasks[n].future
    ensures s.threads == map[] && All(s) == {}
  {
    ConsumedTokens(s, e, n, Task(true, false, false, Freed, Nowhere));
    assert TaskOk(s.tasks[n], n, s.owner);
    assert n !in All(s);
  }

  lemma DrainedTasks(s: State, e: Q.Step, n: Node)
    requires Drains(s, e) && Structure(s) && Q.Apply(s.q, e).deq == Q.Rest(Q.Data(n))
    ensures var s' := DoDrain(s, e);
            && s' == s.(q := Q.Apply(s.q, e), tasks := s'.tasks, frees := s'.frees)
            && Tasks(s'.tasks, s.owner) && Tokens(s'.tasks, s.threads, s'.q.order) && s'.q.enq == s.q.enq && All(s') == {}
  {
    DrainHandsOut(s, e, n);
    var k := s.tasks[n].(ref := Freed, tok := Nowhere);
    ConsumedTokens(s, e, n, k);
    TasksPut(s.tasks, s.owner, n, k, s.owner);
    assert DoDrain(s, e).tasks == s.tasks[n := k];
  }

  lemma StructureDrainData(s: State, e: Q.Step, n: Node)
    requires Drains(s, e) && Structure(s) && Q.Apply(s.q, e).deq == Q.Rest(Q.Data(n))
    ensures Structure(DoDrain(s, e))
  {
    DrainHandsOut(s, e, n);
    DrainedTasks(s, e, n);
    Q.KeepsInv(s.q, e);
    DrainedAlone(s, DoDrain(s, e));
  }

  /** While the queue is drained there is no other thread whose task could matter. */
  lemma DrainedAlone(s: State, s': State)
    requires Structure(s) && s.owner == Draining && s.threads == map[]
    requires s' == s.(q := s'.q, tasks := s'.tasks, frees := s'.frees)
    requires Q.Inv(s'.q) && s'.q.deq.Rest? && s'.q.enq == s.q.enq
    requires Tasks(s'.tasks, s.owner) && Tokens(s'.tasks, s.threads, s'.q.order) && All(s') == {}
    ensures Structure(s')
  {
    assert forall t :: t in s.q.enq ==> t in s.threads;
  }

  lemma StructureDrain(s: State, e: Q.Step)
    requires Drains(s, e) && Structure(s)
    ensures Structure(DoDrain(s, e))
  {
    var d := Q.Apply(s.q, e).deq;
    if HandsOut(d) {
      StructureDrainData(s, e, d.r.node);
    } else {
      var s' := DoDrain(s, e);
      Q.KeepsInv(s.q, e);
      DrainQuiet(s, e);
      UnconsumedTokens(s, e);
      OwnerFrame(s.tasks, s.threads, s.q.enq, s.owner, s'.owner);
      assert All(s') == All(s);
    }
  }

  // ----- steps of other threads keep the structure -----

  lemma StructurePush(s: State, t: Tid, n: Node)
    requires Structure(s) && Enabled(s, Push(t, n))
    ensures Structure(DoPush(s, t, n))
  {
    var s' := DoPush(s, t, n);
    forall m | m in s'.tasks ensures TaskOk(s'.tasks[m], m, s'.owner) && TokenOk(s'.tasks[m], m, s'.threads, s'.q.order) {
      if m != n { assert TaskOk(s.tasks[m], m, s.owner) && TokenOk(s.tasks[m], m, s.threads, s.q.order); }
    }
    forall u | u in s'.threads ensures ThreadOk(s'.threads[u], u, s'.tasks, s'.q.enq, s'.owner) {
      if u != t { assert ThreadOk(s.threads[u], u, s.tasks, s.q.enq, s.owner); }
    }
  }

  /** A thread that keeps its claim, or has none, moves on. */
  lemma TokensMove(tasks: map<Node, Task>, threads: map<Tid, ThreadPc>, order: seq<Node>, t: Tid, threads': map<Tid, ThreadPc>)
    requires Tokens(tasks, threads, order)
    requires forall u :: u in threads && u != t ==> u in threads' && threads'[u] == threads[u]
    requires t in threads && ClaimOf(threads[t]).Some? ==> t in threads' && ClaimOf(threads'[t]) == ClaimOf(threads[t])
    ensures Tokens(tasks, threads', order)
  {
    forall m | m in tasks ensures TokenOk(tasks[m], m, threads', order) { assert TokenOk(tasks[m], m, threads, order); }
  }

  /** One thread moves; its place in the queue's producers may change with it. */
  lemma ThreadsMove(
    threads: map<Tid, ThreadPc>, tasks: map<Node, Task>, enq: map<Tid, Q.EnqueuePc>, pc: OwnerPc,
    t: Tid, threads': map<Tid, ThreadPc>, enq': map<Tid, Q.EnqueuePc>)
    requires Threads(threads, tasks, enq, pc)
    requires forall u :: u in threads' && u != t ==> u in threads && threads'[u] == threads[u]
    requires forall u :: u in threads && u != t ==> u in threads'
    requires forall u :: u != t ==> (u in enq' <==> u in enq) && (u in enq ==> enq'[u] == enq[u])
    requires t in threads' ==> ThreadOk(threads'[t], t, tasks, enq', pc)
    requires t in enq' ==> t in threads'
    ensures Threads(threads', tasks, enq', pc)
  {
    forall u | u in threads' ensures ThreadOk(threads'[u], u, tasks, enq', pc) {
      if u != t { assert ThreadOk(threads[u], u, tasks, enq, pc); }
    }
  }

  lemma StructureUpgrade(s: State, t: Tid, n: Node)
    requires Structure(s) && Enabled(s, Upgrade(t, n))
    ensures Structure(DoUpgrade(s, t, n))
  {
    var s' := DoUpgrade(s, t, n);
    TokensMove(s.tasks, s.threads, s.q.order, t, s'.threads);
    ThreadsMove(s.threads, s.tasks, s.q.enq, s.owner, t, s'.threads, s.q.enq);
  }

  lemma StructureSetWoken(s: State, t: Tid)
    requires Structure(s) && Enabled(s, SetWoken(t))
    ensures Structure(DoSetWoken(s, t))
  {
    var s' := DoSetWoken(s, t);
    var n := s.threads[t].node;
    var k := s.tasks[n].(woken := true);
    TokensPut(s, n, k);
    ThreadsPut(s, n, k, s.owner);
    assert ThreadOk(s.threads[t], t, s.tasks, s.q.enq, s.owner);
    TokensMove(s'.tasks, s.threads, s.q.order, t, s'.threads);
    ThreadsMove(s.threads, s'.tasks, s.q.enq, s.owner, t, s'.threads, s.q.enq);
    forall m | m in s'.tasks ensures TaskOk(s'.tasks[m], m, s'.owner) { assert TaskOk(s.tasks[m], m, s.owner); }
  }

  lemma SwapQueuedTasks(s: State, t: Tid)
    requires Structure(s) && Enabled(s, SwapQueued(t))
    ensures Tasks(DoSwapQueued(s, t).tasks, s.owner)
    ensures Tokens(DoSwapQueued(s, t).tasks, DoSwapQueued(s, t).threads, s.q.order)
  {
    var s' := DoSwapQueued(s, t);
    var n := s.threads[t].node;
    assert TaskOk(s.tasks[n], n, s.owner) && TokenOk(s.tasks[n], n, s.threads, s.q.order);
    forall m | m in s'.tasks ensures TaskOk(s'.tasks[m], m, s'.owner) && TokenOk(s'.tasks[m], m, s'.threads, s'.q.order) {
      assert TaskOk(s.tasks[m], m, s.owner) && TokenOk(s.tasks[m], m, s.threads, s.q.order);
    }
  }

  lemma SwapQueuedThreads(s: State, t: Tid)
    requires Enabled(s, SwapQueued(t)) && Threads(s.threads, s.tasks, s.q.enq, s.owner)
    requires var k := s.tasks[s.threads[t].node]; k.queued || k.tok == Nowhere || k.tok == WithOwner
    ensures Threads(DoSwapQueued(s, t).threads, DoSwapQueued(s, t).tasks, s.q.enq, s.owner)
  {
    var s', n := DoSwapQueued(s, t), s.threads[t].node;
    assert ThreadOk(s.threads[t], t, s.tasks, s.q.enq, s.owner);
    if s.tasks[n].queued {
      ThreadsMove(s.threads, s.tasks, s.q.enq, s.owner, t, s'.threads, s.q.enq);
    } else {
      forall u | u in s.threads ensures ClaimOf(s.threads[u]) != Some(n) { assert ThreadOk(s.threads[u], u, s.tasks, s.q.enq, s.owner); }
      RetagTask(s.threads, s.tasks, s.q.enq, s.owner, n, s'.tasks[n]);
      ThreadsMove(s.threads, s'.tasks, s.q.enq, s.owner, t, s'.threads, s.q.enq);
    }
  }

  lemma StructureSwapQueued(s: State, t: Tid)
    requires Structure(s) && Enabled(s, SwapQueued(t))
    ensures Structure(DoSwapQueued(s, t))
  {
    var n := s.threads[t].node;
    assert TaskOk(s.tasks[n], n, s.owner);
    assert s.threads[t].WokenSet?;
    SwapQueuedTasks(s, t);
    SwapQueuedThreads(s, t);
  }

  /** The claim of a thread is what `enqueue` asks of its caller. */
  lemma ClaimMayEnqueue(s: State, t: Tid)
    requires Structure(s) && t in s.threads && s.threads[t].Claimed?
    ensures Q.CanEnqueue(s.q, s.threads[t].node) && t !in s.q.enq
  {
    var n := s.threads[t].node;
    assert ThreadOk(s.threads[t], t, s.tasks, s.q.enq, s.owner);
    assert TokenOk(s.tasks[n], n, s.threads, s.q.order);
    forall u | u in s.q.enq ensures s.q.enq[u].node != n {
      assert ThreadOk(s.threads[u], u, s.tasks, s.q.enq, s.owner);
      assert Q.ProducerOk(s.q, u);
      if s.q.enq[u].Swapped? { AdjacentMembers(s.q.order, s.q.enq[u].prev, s.q.enq[u].node); }
    }
  }

  lemma StructureClearNext(s: State, t: Tid)
    requires Structure(s) && Enabled(s, ClearNext(t))
    ensures Structure(DoClearNext(s, t))
  {
    var s' := DoClearNext(s, t);
    ClaimMayEnqueue(s, t);
    Q.KeepsClearNext(s.q, t, s.threads[t].node);
    assert ThreadOk(s.threads[t], t, s.tasks, s.q.enq, s.owner);
    TokensMove(s.tasks, s.threads, s.q.order, t, s'.threads);
    ThreadsMove(s.threads, s.tasks, s.q.enq, s.owner, t, s'.threads, s'.q.enq);
  }

  lemma SwapHeadTokens(s: State, t: Tid)
    requires Enabled(s, SwapHead(t))
    requires Tasks(s.tasks, s.owner) && Tokens(s.tasks, s.threads, s.q.order) && Threads(s.threads, s.tasks, s.q.enq, s.owner)
    ensures Tokens(DoSwapHead(s, t).tasks, DoSwapHead(s, t).threads, DoSwapHead(s, t).q.order)
    ensures Tasks(DoSwapHead(s, t).tasks, s.owner)
  {
    var s' := DoSwapHead(s, t);
    assert ThreadOk(s.threads[t], t, s.tasks, s.q.enq, s.owner);
    forall m | m in s'.tasks ensures TaskOk(s'.tasks[m], m, s.owner) && TokenOk(s'.tasks[m], m, s'.threads, s'.q.order) {
      assert TaskOk(s.tasks[m], m, s.owner) && TokenOk(s.tasks[m], m, s.threads, s.q.order);
    }
  }

  /** A task changes that no thread claims or knows only by name. */
  lemma RetagTask(threads: map<Tid, ThreadPc>, tasks: map<Node, Task>, enq: map<Tid, Q.EnqueuePc>, pc: OwnerPc, n: Node, k: Task)
    requires Threads(threads, tasks, enq, pc) && n in tasks
    requires forall u :: u in threads ==> ClaimOf(threads[u]) != Some(n)
    ensures Threads(threads, tasks[n := k], enq, pc)
  {
    forall u | u in threads ensures ThreadOk(threads[u], u, tasks[n := k], enq, pc) {
      assert ThreadOk(threads[u], u, tasks, enq, pc);
    }
  }

  /** Only the thread that its token names claims a task. */
  lemma ClaimIsUnique(threads: map<Tid, ThreadPc>, tasks: map<Node, Task>, enq: map<Tid, Q.EnqueuePc>, pc: OwnerPc, t: Tid, n: Node)
    requires Threads(threads, tasks, enq, pc) && t in threads && ClaimOf(threads[t]) == Some(n)
    ensures n in tasks && tasks[n].tok == With(t)
    ensures forall u :: u in threads && u != t ==> ClaimOf(threads[u]) != Some(n)
  {
    assert ThreadOk(threads[t], t, tasks, enq, pc);
    forall u | u in threads && u != t ensures ClaimOf(threads[u]) != Some(n) { assert ThreadOk(threads[u], u, tasks, enq, pc); }
  }

  /** t's node n joins the chain behind prev. */
  lemma SwapHeadThreads(
    threads: map<Tid, ThreadPc>, tasks: map<Node, Task>, enq: map<Tid, Q.EnqueuePc>, pc: OwnerPc,
    t: Tid, n: Node, prev: Node, k: Task)
    requires Threads(threads, tasks, enq, pc) && t in threads && threads[t].Cleared? && threads[t].node == n && n in tasks
    ensures Threads(threads[t := Linking(n, threads[t].push)], tasks[n := k], enq[t := Q.Swapped(n, prev)], pc)
  {
    assert ThreadOk(threads[t], t, tasks, enq, pc);
    ClaimIsUnique(threads, tasks, enq, pc, t, n);
    ThreadsMove(threads, tasks, enq, pc, t, threads - {t}, enq - {t});
    RetagTask(threads - {t}, tasks, enq - {t}, pc, n, k);
    ThreadsMove(threads - {t}, tasks[n := k], enq - {t}, pc,
                t, threads[t := Linking(n, threads[t].push)], enq[t := Q.Swapped(n, prev)]);
  }

  lemma StructureSwapHead(s: State, t: Tid)
    requires Structure(s) && Enabled(s, SwapHead(t))
    ensures Structure(DoSwapHead(s, t))
  {
    var n := s.threads[t].node;
    Q.KeepsSwapHead(s.q, t);
    SwapHeadTokens(s, t);
    assert ThreadOk(s.threads[t], t, s.tasks, s.q.enq, s.owner);
    SwapHeadThreads(s.threads, s.tasks, s.q.enq, s.owner, t, n, s.q.head, s.tasks[n].(tok := InChain));
  }

  lemma LinkPrevThreads(s: State, t: Tid)
    requires Enabled(s, LinkPrev(t))
    requires Tokens(s.tasks, s.threads, s.q.order) && Threads(s.threads, s.tasks, s.q.enq, s.owner)
    ensures var s' := DoLinkPrev(s, t);
            Tokens(s.tasks, s'.threads, s.q.order) && Threads(s'.threads, s.tasks, s'.q.enq, s.owner)
  {
    var s' := DoLinkPrev(s, t);
    assert ThreadOk(s.threads[t], t, s.tasks, s.q.enq, s.owner);
    TokensMove(s.tasks, s.threads, s.q.order, t, s'.threads);
    ThreadsMove(s.threads, s.tasks, s.q.enq, s.owner, t, s'.threads, s'.q.enq);
  }

  lemma LinkPrevOwner(s: State, t: Tid)
    requires Enabled(s, LinkPrev(t)) && OwnerOk(s) && Wakers(s.aw.pc, s.threads, s.owner)
    ensures var s' := DoLinkPrev(s, t);
            && OwnerOk(s') && Wakers(s'.aw.pc, s'.threads, s'.owner)
            && s'.tasks == s.tasks && s'.owner == s.owner && s'.aw == s.aw && s'.q.order == s.q.order
  {
  }

  lemma StructureLinkPrev(s: State, t: Tid)
    requires Structure(s) && Enabled(s, LinkPrev(t))
    ensures Structure(DoLinkPrev(s, t))
  {
    Q.KeepsLinkPrev(s.q, t);
    LinkPrevThreads(s, t);
    LinkPrevOwner(s, t);
  }

  lemma CallWakeThreads(s: State, t: Tid)
    requires Enabled(s, CallWake(t))
    requires Tokens(s.tasks, s.threads, s.q.order) && Threads(s.threads, s.tasks, s.q.enq, s.owner)
    ensures var threads' := s.threads[t := Leaving];
            Tokens(s.tasks, threads', s.q.order) && Threads(threads', s.tasks, s.q.enq, s.owner)
  {
    assert ThreadOk(s.threads[t], t, s.tasks, s.q.enq, s.owner);
    TokensMove(s.tasks, s.threads, s.q.order, t, s.threads[t := Leaving]);
    ThreadsMove(s.threads, s.tasks, s.q.enq, s.owner, t, s.threads[t := Leaving], s.q.enq);
  }

  lemma StructureCallWake(s: State, t: Tid)
    requires Structure(s) && Enabled(s, CallWake(t))
    ensures Structure(DoCallWake(s, t))
  {
    A.KeepsInv(s.aw, A.WakeFetchOr(t));
    CallWakeThreads(s, t);
  }

  lemma StructureAwStep(s: State, a: A.Step)
    requires Structure(s) && Enabled(s, AwStep(a))
    ensures Structure(DoAwStep(s, a))
  {
    A.KeepsInv(s.aw, a);
    InsideStaysInside(s.aw, a);
  }

  /** A thread inside `register` or `wake` stays in the same call until it leaves it. */
  lemma InsideStaysInside(aw: A.State, a: A.Step)
    requires A.Enabled(aw, a) && !a.RegisterCas? && !a.WakeFetchOr?
    ensures forall t :: t in A.Apply(aw, a).pc ==> t in aw.pc && (A.InRegister(aw.pc[t]) <==> A.InRegister(A.Apply(aw, a).pc[t]))
  {
  }

  lemma LeaveThreads(s: State, t: Tid)
    requires Enabled(s, Leave(t))
    requires Tokens(s.tasks, s.threads, s.q.order) && Threads(s.threads, s.tasks, s.q.enq, s.owner)
    ensures Tokens(s.tasks, s.threads - {t}, s.q.order) && Threads(s.threads - {t}, s.tasks, s.q.enq, s.owner)
  {
    assert ThreadOk(s.threads[t], t, s.tasks, s.q.enq, s.owner);
    TokensMove(s.tasks, s.threads, s.q.order, t, s.threads - {t});
    ThreadsMove(s.threads, s.tasks, s.q.enq, s.owner, t, s.threads - {t}, s.q.enq);
  }

  /** The last reference to the queue goes with t. */
  lemma StructureLeaveLast(s: State, t: Tid)
    requires Structure(s) && Enabled(s, Leave(t)) && s.owner == Gone && s.threads - {t} == map[]
    ensures Structure(DoLeave(s, t))
  {
    LeaveThreads(s, t);
    OwnerFrame(s.tasks, map[], s.q.enq, s.owner, Draining);
  }

  lemma StructureLeave(s: State, t: Tid)
    requires Structure(s) && Enabled(s, Leave(t))
    ensures Structure(DoLeave(s, t))
  {
    if s.owner == Gone && s.threads - {t} == map[] {
      StructureLeaveLast(s, t);
    } else {
      LeaveThreads(s, t);
    }
  }

  predicate IsEnqueueStep(e: Step) { e.SwapQueued? || e.ClearNext? || e.SwapHead? || e.LinkPrev? }

  predicate IsOtherThreadStep(e: Step) { e.Push? || e.Upgrade? || e.SetWoken? || e.CallWake? || e.AwStep? || e.Leave? }

  lemma EnqueuerKeepsStructure(s: State, e: Step)
    requires Structure(s) && Enabled(s, e) && IsEnqueueStep(e)
    ensures Structure(Apply(s, e))
  {
    match e
    case SwapQueued(t) => assert Apply(s, e) == DoSwapQueued(s, t); StructureSwapQueued(s, t);
    case ClearNext(t) => assert Apply(s, e) == DoClearNext(s, t); StructureClearNext(s, t);
    case SwapHead(t) => assert Apply(s, e) == DoSwapHead(s, t); StructureSwapHead(s, t);
    case LinkPrev(t) => assert Apply(s, e) == DoLinkPrev(s, t); StructureLinkPrev(s, t);
  }

  lemma ThreadKeepsStructure(s: State, e: Step)
    requires Structure(s) && Enabled(s, e) && IsOtherThreadStep(e)
    ensures Structure(Apply(s, e))
  {
    match e
    case Push(t, n) => assert Apply(s, e) == DoPush(s, t, n); StructurePush(s, t, n);
    case Upgrade(t, n) => assert Apply(s, e) == DoUpgrade(s, t, n); StructureUpgrade(s, t, n);
    case SetWoken(t) => assert Apply(s, e) == DoSetWoken(s, t); StructureSetWoken(s, t);
    case CallWake(t) => assert Apply(s, e) == DoCallWake(s, t); StructureCallWake(s, t);
    case AwStep(a) => assert Apply(s, e) == DoAwStep(s, a); StructureAwStep(s, a);
    case Leave(t) => assert Apply(s, e) == DoLeave(s, t); StructureLeave(s, t);
  }

  lemma OwnerKeepsStructure(s: State, e: Step)
    requires Structure(s) && Enabled(s, e) && !IsEnqueueStep(e) && !IsOtherThreadStep(e)
    ensures Structure(Apply(s, e))
  {
    match e
    case BeginPoll(w) => StructureBeginPoll(s, w);
    case EnterLoop => StructureOwnerMoves(s, e);
    case Consume(qe) => StructureConsume(s, qe);
    case Inspect => StructureOwnerTask(s, e);
    case ResetQueued => StructureOwnerTask(s, e);
    case StartChild => StructureOwnerTask(s, e);
    case ChildReturns(ready) => StructureChildReturns(s, ready);
    case Relink => StructureOwnerTask(s, e);
    case SelfWake => StructureSelfWake(s);
    case ReleaseSwap => StructureOwnerTask(s, e);
    case ReleaseDrop => StructureOwnerTask(s, e);
    case BeginIter => StructureOwnerMoves(s, e);
    case IterNext(_) => StructureTakeNext(s, e);
    case BeginDrop => StructureOwnerMoves(s, e);
    case DropNext(_) => StructureTakeNext(s, e);
    case DropOwnerRef => StructureOwnerMoves(s, e);
    case Drain(qe) => StructureDrain(s, qe);
  }

  lemma KeepsStructure(s: State, e: Step)
    requires Structure(s) && Enabled(s, e)
    ensures Structure(Apply(s, e))
  {
    if IsEnqueueStep(e) {
      EnqueuerKeepsStructure(s, e);
    } else if IsOtherThreadStep(e) {
      ThreadKeepsStructure(s, e);
    } else {
      OwnerKeepsStructure(s, e);
    }
  }
}
