/** The intrusive multi-producer single-consumer queue of
    futures-util/src/stream/futures_unordered/ready_to_run_queue.rs.

    Any number of threads may be inside `enqueue`; one consumer is inside `dequeue`.  Each
    load, store and swap of a shared pointer is one step.  `tail` belongs to the consumer,
    so a load of `next_ready_to_run` and the move of `tail` that follows it are one step. */
module ReadyToRunQueues {
  import opened Runs
  import opened Chains

  /** The node that is never handed out; it lets the chain be non-empty at all times. */
  const STUB: Node := 0

  datatype Dequeue = Data(node: Node) | Empty | Inconsistent

  /** A producer inside `enqueue(node)`. */
  datatype EnqueuePc =
    | Cleared(node: Node)                // its next pointer is null; the head swap comes next
    | Swapped(node: Node, prev: Node)    // it is the head; the link from prev comes next

  /** The consumer inside `dequeue`; `Rest` holds what the last call returned. */
  datatype DequeuePc =
    | Rest(r: Dequeue)
    | PassedStub                         // tail was the stub and has moved on
    | CheckHead                          // the next pointer of tail was null
    | ClearStub | SwapStub | LinkStub(prev: Node)   // inside enqueue(stub)
    | LastLook                           // the stub is back in the chain

  datatype State = State(
    head: Node,
    tail: Node,
    next: map<Node, Option<Node>>,
    enq: map<Tid, EnqueuePc>,
    deq: DequeuePc,
    order: seq<Node>,                    // the chain from tail to head, in the order of the head swaps
    enqueued: seq<Node>,                 // every node but the stub, in the order of the head swaps
    dequeued: seq<Node>)                 // every node handed out by dequeue, in order

  const Init := State(STUB, STUB, map[], map[], Rest(Empty), [STUB], [], [])

  function NextOf(s: State, n: Node): Option<Node> {
    if n in s.next then s.next[n] else None
  }

  /** The nodes in the queue: the chain without the stub. */
  function NonStub(q: seq<Node>): seq<Node> {
    if q == [] then [] else (if q[0] == STUB then [] else [q[0]]) + NonStub(q[1..])
  }

  function Fifo(s: State): seq<Node> { NonStub(s.order) }

  // ----- the atomic steps of enqueue -----

  /** What a producer owes the queue: the node is neither in the chain nor being enqueued. */
  predicate CanEnqueue(s: State, n: Node) {
    n != STUB && n !in s.order && forall t :: t in s.enq ==> s.enq[t].node != n
  }

  function DoClearNext(s: State, t: Tid, n: Node): State {
    s.(next := s.next[n := None], enq := s.enq[t := Cleared(n)])
  }

  function DoSwapHead(s: State, t: Tid): State
    requires t in s.enq && s.enq[t].Cleared?
  {
    var n := s.enq[t].node;
    s.(head := n, enq := s.enq[t := Swapped(n, s.head)], order := s.order + [n], enqueued := s.enqueued + [n])
  }

  function DoLinkPrev(s: State, t: Tid): State
    requires t in s.enq && s.enq[t].Swapped?
  {
    s.(next := s.next[s.enq[t].prev := Some(s.enq[t].node)], enq := s.enq - {t})
  }

  // ----- the atomic steps of dequeue -----

  /** tail moves to the next node and the node it leaves is handed out. */
  function HandOut(s: State, nxt: Node): State {
    s.(tail := nxt, deq := Rest(Data(s.tail)),
    order := if s.order == [] then [] else s.order[1..], dequeued := s.dequeued + [s.tail])
  }

  function DoFirstLoad(s: State): State {
    match NextOf(s, s.tail)
    case None => s.(deq := if s.tail == STUB then Rest(Empty) else CheckHead)
    case Some(nxt) =>
      if s.tail == STUB then
        s.(tail := nxt, deq := PassedStub, order := if s.order == [] then [] else s.order[1..])
      else
        HandOut(s, nxt)
  }

  function DoSecondLoad(s: State): State {
    match NextOf(s, s.tail)
    case None => s.(deq := CheckHead)
    case Some(nxt) => HandOut(s, nxt)
  }

  function DoCheckHead(s: State): State {
    s.(deq := if s.head == s.tail then ClearStub else Rest(Inconsistent))
  }

  function DoClearStub(s: State): State {
    s.(next := s.next[STUB := None], deq := SwapStub)
  }

  function DoSwapStub(s: State): State {
    s.(head := STUB, deq := LinkStub(s.head), order := s.order + [STUB])
  }

  function DoLinkStub(s: State): State
    requires s.deq.LinkStub?
  {
    s.(next := s.next[s.deq.prev := Some(STUB)], deq := LastLook)
  }

  function DoLastLook(s: State): State {
    match NextOf(s, s.tail)
    case None => s.(deq := Rest(Inconsistent))
    case Some(nxt) => HandOut(s, nxt)
  }

  datatype Step =
    | ClearNextStep(t: Tid, n: Node) | SwapHeadStep(t: Tid) | LinkPrevStep(t: Tid)
    | FirstLoadStep | SecondLoadStep | CheckHeadStep
    | ClearStubStep | SwapStubStep | LinkStubStep | LastLookStep

  predicate IsConsumerStep(e: Step) { !e.ClearNextStep? && !e.SwapHeadStep? && !e.LinkPrevStep? }

  predicate Enabled(s: State, e: Step) {
    match e
    case ClearNextStep(t, n) => t !in s.enq && CanEnqueue(s, n)
    case SwapHeadStep(t) => t in s.enq && s.enq[t].Cleared?
    case LinkPrevStep(t) => t in s.enq && s.enq[t].Swapped?
    case FirstLoadStep => s.deq.Rest?
    case SecondLoadStep => s.deq == PassedStub
    case CheckHeadStep => s.deq == CheckHead
    case ClearStubStep => s.deq == ClearStub
    case SwapStubStep => s.deq == SwapStub
    case LinkStubStep => s.deq.LinkStub?
    case LastLookStep => s.deq == LastLook
  }

  function Apply(s: State, e: Step): State
    requires Enabled(s, e)
  {
    match e
    case ClearNextStep(t, n) => DoClearNext(s, t, n)
    case SwapHeadStep(t) => DoSwapHead(s, t)
    case LinkPrevStep(t) => DoLinkPrev(s, t)
    case FirstLoadStep => DoFirstLoad(s)
    case SecondLoadStep => DoSecondLoad(s)
    case CheckHeadStep => DoCheckHead(s)
    case ClearStubStep => DoClearStub(s)
    case SwapStubStep => DoSwapStub(s)
    case LinkStubStep => DoLinkStub(s)
    case LastLookStep => DoLastLook(s)
  }

  /** The step of `dequeue` that comes next. */
  function ConsumerStep(d: DequeuePc): (e: Step)
    ensures IsConsumerStep(e) && forall s: State :: s.deq == d ==> Enabled(s, e)
  {
    match d
    case Rest(_) => FirstLoadStep
    case PassedStub => SecondLoadStep
    case CheckHead => CheckHeadStep
    case ClearStub => ClearStubStep
    case SwapStub => SwapStubStep
    case LinkStub(_) => LinkStubStep
    case LastLook => LastLookStep
  }

  ghost predicate IsInit(s: State) { s == Init }

  ghost predicate Next(s: State, e: Step, s': State) {
    Enabled(s, e) && s' == Apply(s, e)
  }

  // ----- the invariant -----

  /** Somebody has swapped n in behind p and has still to write the link. */
  ghost predicate LinkDue(s: State, p: Node, n: Node) {
    || (exists t :: t in s.enq && s.enq[t] == Swapped(n, p))
    || (s.deq == LinkStub(p) && n == STUB)
  }

  ghost predicate ChainShape(s: State) {
    && s.order != [] && NoDuplicates(s.order)
    && s.order[0] == s.tail && s.order[|s.order| - 1] == s.head
    && NextOf(s, s.head) == None
  }

  /** Every link of the chain is written, or still due. */
  ghost predicate ChainLinks(s: State) {
    forall i :: 0 <= i < |s.order| - 1 ==>
      || NextOf(s, s.order[i]) == Some(s.order[i + 1])
      || (NextOf(s, s.order[i]) == None && LinkDue(s, s.order[i], s.order[i + 1]))
  }

  ghost predicate ProducerOk(s: State, t: Tid)
    requires t in s.enq
  {
    match s.enq[t]
    case Cleared(n) => n != STUB && n !in s.order && NextOf(s, n) == None
    case Swapped(n, p) => n != STUB && Adjacent(s.order, p, n) && NextOf(s, p) == None
  }

  ghost predicate Producers(s: State) {
    && (forall t :: t in s.enq ==> ProducerOk(s, t))
    && (forall t, u :: t in s.enq && u in s.enq && s.enq[t].node == s.enq[u].node ==> t == u)
  }

  ghost predicate ConsumerOk(s: State) {
    match s.deq
    case Rest(_) => true
    case PassedStub => STUB !in s.order
    case CheckHead => s.tail != STUB
    case ClearStub => STUB !in s.order
    case SwapStub => STUB !in s.order && NextOf(s, STUB) == None
    case LinkStub(p) => s.tail != STUB && Adjacent(s.order, p, STUB) && NextOf(s, p) == None
    case LastLook => s.tail != STUB && |s.order| >= 2
  }

  /** What went in is what came out followed by what is inside. */
  ghost predicate History(s: State) {
    s.enqueued == s.dequeued + Fifo(s)
  }

  ghost predicate Inv(s: State) {
    && ChainShape(s)
    && ChainLinks(s)
    && Producers(s)
    && ConsumerOk(s)
    && History(s)
  }

  lemma {:induction false} NonStubConcat(a: seq<Node>, b: seq<Node>)
    ensures NonStub(a + b) == NonStub(a) + NonStub(b)
  {
    if a == [] {
      assert a + b == b;
    } else {
      assert (a + b)[1..] == a[1..] + b;
      NonStubConcat(a[1..], b);
    }
  }

  lemma {:induction false} NonStubMember(q: seq<Node>, n: Node)
    ensures n in NonStub(q) <==> n in q && n != STUB
  {
    if q != [] {
      assert n in q <==> n == q[0] || n in q[1..];
      NonStubMember(q[1..], n);
    }
  }

  /** Links stay due while their producers and the consumer stay where they are. */
  lemma LinkDueFrame(s: State, s': State)
    requires forall t :: t in s.enq && s.enq[t].Swapped? ==> t in s'.enq && s'.enq[t] == s.enq[t]
    requires s.deq.LinkStub? ==> s'.deq == s.deq
    ensures forall p, m :: LinkDue(s, p, m) ==> LinkDue(s', p, m)
  {
    forall p, m | LinkDue(s, p, m) ensures LinkDue(s', p, m) {
      if t :| t in s.enq && s.enq[t] == Swapped(m, p) { assert s'.enq[t] == s.enq[t]; }
    }
  }

  lemma KeepsClearNext(s: State, t: Tid, n: Node)
    requires Inv(s) && t !in s.enq && CanEnqueue(s, n)
    ensures Inv(DoClearNext(s, t, n))
  {
    var s' := DoClearNext(s, t, n);
    assert forall m :: m != n ==> NextOf(s', m) == NextOf(s, m);
    forall u | u in s'.enq ensures ProducerOk(s', u) {
      if u != t { assert ProducerOk(s, u); }
    }
    LinkDueFrame(s, s');
  }

  /** Putting n behind the head, with the link from the old head due. */
  lemma KeepsAppend(s: State, s': State, n: Node)
    requires Inv(s) && n !in s.order && NextOf(s, n) == None
    requires s'.order == s.order + [n] && s'.head == n && s'.tail == s.tail && s'.next == s.next
    requires forall p, m :: LinkDue(s, p, m) ==> LinkDue(s', p, m)
    requires LinkDue(s', s.head, n)
    ensures ChainShape(s') && ChainLinks(s')
  {
    forall i | 0 <= i < |s'.order| - 1
      ensures || NextOf(s', s'.order[i]) == Some(s'.order[i + 1])
              || (NextOf(s', s'.order[i]) == None && LinkDue(s', s'.order[i], s'.order[i + 1]))
    {
      if i < |s.order| - 1 {
        assert s'.order[i] == s.order[i] && s'.order[i + 1] == s.order[i + 1];
      }
    }
  }

  lemma AppendHistory(s: State, n: Node)
    requires History(s)
    ensures s.enqueued + (if n == STUB then [] else [n]) == s.dequeued + NonStub(s.order + [n])
  {
    NonStubConcat(s.order, [n]);
    assert NonStub([n]) == (if n == STUB then [] else [n]) + NonStub([n][1..]);
  }

  lemma AppendProducers(s: State, t: Tid)
    requires Inv(s) && t in s.enq && s.enq[t].Cleared?
    ensures Producers(DoSwapHead(s, t))
  {
    var s' := DoSwapHead(s, t);
    assert ProducerOk(s, t);
    AdjacentAppend(s.order, s.enq[t].node);
    forall u | u in s'.enq ensures ProducerOk(s', u) {
      assert ProducerOk(s, u);
    }
  }

  lemma KeepsSwapHead(s: State, t: Tid)
    requires Inv(s) && t in s.enq && s.enq[t].Cleared?
    ensures Inv(DoSwapHead(s, t))
  {
    var s' := DoSwapHead(s, t);
    var n := s.enq[t].node;
    assert ProducerOk(s, t);
    LinkDueFrame(s, s');
    assert s'.enq[t] == Swapped(n, s.head);
    KeepsAppend(s, s', n);
    AppendProducers(s, t);
    AppendHistory(s, n);
    AdjacentAppend(s.order, n);
  }

  /** A link that was due is written: the chain is as before, with one link more. */
  lemma KeepsLink(s: State, s': State, p: Node, n: Node)
    requires Inv(s) && Adjacent(s.order, p, n) && NextOf(s, p) == None
    requires s'.next == s.next[p := Some(n)]
    requires s'.order == s.order && s'.head == s.head && s'.tail == s.tail
    requires forall q, m :: m != n && LinkDue(s, q, m) ==> LinkDue(s', q, m)
    ensures ChainShape(s') && ChainLinks(s')
  {
    var j :| 0 <= j < |s.order| - 1 && s.order[j] == p && s.order[j + 1] == n;
    forall i | 0 <= i < |s'.order| - 1
      ensures || NextOf(s', s'.order[i]) == Some(s'.order[i + 1])
              || (NextOf(s', s'.order[i]) == None && LinkDue(s', s'.order[i], s'.order[i + 1]))
    {
      if i != j { assert s.order[i] != p && s.order[i + 1] != n; }
    }
  }

  lemma KeepsLinkPrev(s: State, t: Tid)
    requires Inv(s) && t in s.enq && s.enq[t].Swapped?
    ensures Inv(DoLinkPrev(s, t))
  {
    var s' := DoLinkPrev(s, t);
    var Swapped(n, p) := s.enq[t];
    assert ProducerOk(s, t);
    forall q, m | m != n && LinkDue(s, q, m) ensures LinkDue(s', q, m) {
      if u :| u in s.enq && s.enq[u] == Swapped(m, q) { assert u in s'.enq && s'.enq[u] == s.enq[u]; }
    }
    KeepsLink(s, s', p, n);
    forall u | u in s'.enq ensures ProducerOk(s', u) {
      assert ProducerOk(s, u);
      if s.enq[u].Swapped? {
        AdjacentInjective(s.order, p, n, s.enq[u].prev, s.enq[u].node);
      } else {
        AdjacentMembers(s.order, p, n);
      }
    }
    if s.deq.LinkStub? { AdjacentInjective(s.order, p, n, s.deq.prev, STUB); }
    AdjacentMembers(s.order, p, n);
  }

  /** The first node of the chain is left behind, once its link is written. */
  lemma KeepsDropFirst(s: State, s': State, nxt: Node)
    requires Inv(s) && NextOf(s, s.tail) == Some(nxt) && !s.deq.LinkStub?
    requires s'.order == s.order[1..] && s'.head == s.head && s'.tail == nxt && s'.next == s.next && s'.enq == s.enq
    ensures ChainShape(s') && ChainLinks(s') && Producers(s')
    ensures |s.order| >= 2 && s.order[1] == nxt
  {
    assert |s.order| >= 2;
    assert s.order[0] == s.tail && s.order[0 + 1] == nxt;
    forall t | t in s'.enq ensures ProducerOk(s', t) {
      assert ProducerOk(s, t);
      if s.enq[t].Swapped? { AdjacentDropFirst(s.order, s.enq[t].prev, s.enq[t].node); }
    }
    forall i | 0 <= i < |s'.order| - 1
      ensures || NextOf(s', s'.order[i]) == Some(s'.order[i + 1])
              || (NextOf(s', s'.order[i]) == None && LinkDue(s', s'.order[i], s'.order[i + 1]))
    {
      assert s'.order[i] == s.order[i + 1] && s'.order[i + 1] == s.order[i + 1 + 1];
      if NextOf(s, s.order[i + 1]) == None {
        assert LinkDue(s, s.order[i + 1], s.order[i + 1 + 1]);
        var u :| u in s.enq && s.enq[u] == Swapped(s.order[i + 1 + 1], s.order[i + 1]);
        assert s'.enq[u] == s.enq[u];
      }
    }
  }

  /** The consumer looked and moved nothing. */
  lemma KeepsLooking(s: State, d: DequeuePc)
    requires Inv(s) && !s.deq.LinkStub?
    requires ConsumerOk(s.(deq := d)) && !d.LinkStub?
    ensures Inv(s.(deq := d))
  {
    var s' := s.(deq := d);
    LinkDueFrame(s, s');
    forall t | t in s'.enq ensures ProducerOk(s', t) { assert ProducerOk(s, t); }
  }

  lemma FifoDropFirst(s: State)
    requires s.order != []
    ensures Fifo(s) == (if s.order[0] == STUB then [] else [s.order[0]]) + NonStub(s.order[1..])
  {
  }

  lemma HandOutHistory(s: State, nxt: Node)
    requires s.order != [] && s.order[0] == s.tail != STUB && History(s)
    ensures History(HandOut(s, nxt))
    ensures Fifo(s) == [s.tail] + Fifo(HandOut(s, nxt))
  {
    FifoDropFirst(s);
    assert s.dequeued + ([s.tail] + NonStub(s.order[1..])) == (s.dequeued + [s.tail]) + NonStub(s.order[1..]);
  }

  lemma KeepsHandOut(s: State, nxt: Node)
    requires Inv(s) && !s.deq.LinkStub? && s.tail != STUB && NextOf(s, s.tail) == Some(nxt)
    ensures Inv(HandOut(s, nxt))
    ensures Fifo(s) == [s.tail] + Fifo(HandOut(s, nxt))
  {
    KeepsDropFirst(s, HandOut(s, nxt), nxt);
    HandOutHistory(s, nxt);
  }

  lemma KeepsFirstLoad(s: State)
    requires Inv(s) && s.deq.Rest?
    ensures Inv(DoFirstLoad(s))
  {
    match NextOf(s, s.tail)
    case None => KeepsLooking(s, DoFirstLoad(s).deq);
    case Some(nxt) =>
      if s.tail == STUB {
        KeepsDropFirst(s, DoFirstLoad(s), nxt);
        FifoDropFirst(s);
      } else {
        KeepsHandOut(s, nxt);
      }
  }

  lemma KeepsSecondLoad(s: State)
    requires Inv(s) && s.deq == PassedStub
    ensures Inv(DoSecondLoad(s))
  {
    assert s.tail in s.order;
    match NextOf(s, s.tail)
    case None => KeepsLooking(s, CheckHead);
    case Some(nxt) => KeepsHandOut(s, nxt);
  }

  lemma KeepsLastLook(s: State)
    requires Inv(s) && s.deq == LastLook
    ensures Inv(DoLastLook(s))
  {
    match NextOf(s, s.tail)
    case None => KeepsLooking(s, Rest(Inconsistent));
    case Some(nxt) => KeepsHandOut(s, nxt);
  }

  lemma KeepsCheckHead(s: State)
    requires Inv(s) && s.deq == CheckHead
    ensures Inv(DoCheckHead(s))
  {
    if s.head == s.tail { assert |s.order| == 1; }
    KeepsLooking(s, DoCheckHead(s).deq);
  }

  lemma KeepsClearStub(s: State)
    requires Inv(s) && s.deq == ClearStub
    ensures Inv(DoClearStub(s))
  {
    var s' := DoClearStub(s);
    LinkDueFrame(s, s');
    forall t | t in s'.enq ensures ProducerOk(s', t) { assert ProducerOk(s, t); }
  }

  lemma KeepsSwapStub(s: State)
    requires Inv(s) && s.deq == SwapStub
    ensures Inv(DoSwapStub(s))
  {
    var s' := DoSwapStub(s);
    AdjacentAppend(s.order, STUB);
    AppendHistory(s, STUB);
    LinkDueFrame(s, s');
    KeepsAppend(s, s', STUB);
    forall t | t in s'.enq ensures ProducerOk(s', t) { assert ProducerOk(s, t); }
    assert s.tail in s.order;
  }

  lemma KeepsLinkStub(s: State)
    requires Inv(s) && s.deq.LinkStub?
    ensures Inv(DoLinkStub(s))
  {
    var s' := DoLinkStub(s);
    var p := s.deq.prev;
    forall q, m | m != STUB && LinkDue(s, q, m) ensures LinkDue(s', q, m) {
      var u :| u in s.enq && s.enq[u] == Swapped(m, q);
      assert s'.enq[u] == s.enq[u];
    }
    KeepsLink(s, s', p, STUB);
    AdjacentMembers(s.order, p, STUB);
    forall t | t in s'.enq ensures ProducerOk(s', t) {
      assert ProducerOk(s, t);
      if s.enq[t].Swapped? { AdjacentInjective(s.order, p, STUB, s.enq[t].prev, s.enq[t].node); }
    }
  }

  lemma InitInv()
    ensures Inv(Init)
  {
    assert NonStub([STUB]) == [];
  }

  lemma KeepsInv(s: State, e: Step)
    requires Inv(s) && Enabled(s, e)
    ensures Inv(Apply(s, e))
  {
    match e
    case ClearNextStep(t, n) => KeepsClearNext(s, t, n);
    case SwapHeadStep(t) => KeepsSwapHead(s, t);
    case LinkPrevStep(t) => KeepsLinkPrev(s, t);
    case FirstLoadStep => KeepsFirstLoad(s);
    case SecondLoadStep => KeepsSecondLoad(s);
    case CheckHeadStep => KeepsCheckHead(s);
    case ClearStubStep => KeepsClearStub(s);
    case SwapStubStep => KeepsSwapStub(s);
    case LinkStubStep => KeepsLinkStub(s);
    case LastLookStep => KeepsLastLook(s);
  }

  // ----- what the algorithm promises -----

  /** Nobody is due to write n's next pointer, and n may be enqueued again at once. */
  ghost predicate Released(s: State, n: Node) {
    && CanEnqueue(s, n)
    && (forall t :: t in s.enq && s.enq[t].Swapped? ==> s.enq[t].prev != n)
    && s.deq != LinkStub(n)
  }

  /** A step that ends `dequeue` with a node hands out the oldest node of the queue, never
      the stub, and nobody still holds a pending write to it. */
  lemma HandsOutOldest(s: State, e: Step, n: Node)
    requires Inv(s) && Enabled(s, e) && IsConsumerStep(e)
    requires Apply(s, e).deq == Rest(Data(n))
    ensures n != STUB && Fifo(s) == [n] + Fifo(Apply(s, e))
    ensures Apply(s, e).dequeued == s.dequeued + [n] && Apply(s, e).enqueued == s.enqueued
    ensures Released(Apply(s, e), n)
  {
    var s' := Apply(s, e);
    KeepsInv(s, e);
    assert s.tail in s.order;
    assert NextOf(s, s.tail).Some?;
    KeepsHandOut(s, NextOf(s, s.tail).value);
    assert s.order[0] == n;
    forall t | t in s'.enq ensures s'.enq[t].node != n && (s'.enq[t].Swapped? ==> s'.enq[t].prev != n) {
      assert ProducerOk(s, t) && ProducerOk(s', t);
      if s'.enq[t].Swapped? { AdjacentMembers(s'.order, s'.enq[t].prev, s'.enq[t].node); }
    }
  }

  /** `Empty` is returned only when nothing is in the queue, or when a producer has swapped
      its node in right behind the stub and has still to write the link. */
  lemma EmptyMeansEmpty(s: State)
    requires Inv(s) && s.deq.Rest? && DoFirstLoad(s).deq == Rest(Empty)
    ensures Fifo(s) == [] || exists t :: t in s.enq && s.enq[t] == Swapped(Fifo(s)[0], STUB)
  {
    FifoDropFirst(s);
    if |s.order| > 1 {
      assert LinkDue(s, s.order[0], s.order[0 + 1]);
      assert s.order[1] != STUB;
      FifoDropFirst(s.(order := s.order[1..]));
    }
  }

  /** The last look fails only while a producer has still to link its node behind tail. */
  lemma LateInconsistent(s: State)
    requires Inv(s) && s.deq == LastLook && DoLastLook(s).deq == Rest(Inconsistent)
    ensures exists t, n :: t in s.enq && s.enq[t] == Swapped(n, s.tail)
  {
    assert s.order[0] == s.tail && LinkDue(s, s.order[0], s.order[0 + 1]);
  }

  /** A step of the consumer takes the node it hands out off the chain, and no other. */
  lemma ConsumerMembership(s: State, e: Step, m: Node)
    requires Inv(s) && Enabled(s, e) && IsConsumerStep(e) && m != STUB
    ensures m in Apply(s, e).order <==> m in s.order && Apply(s, e).deq != Rest(Data(m))
    ensures Apply(s, e).enq == s.enq
  {
    var s' := Apply(s, e);
    if s'.deq == Rest(Data(m)) {
      HandsOutOldest(s, e, m);
    } else {
      assert s.order == [s.order[0]] + s.order[1..];
      assert s.tail == s.order[0];
    }
  }

  /** With no producer inside `enqueue` the chain is fully linked. */
  lemma QuietLinks(s: State)
    requires Inv(s) && s.enq == map[] && !s.deq.LinkStub?
    ensures |s.order| >= 2 ==> NextOf(s, s.tail) == Some(s.order[1])
    ensures |s.order| == 1 ==> NextOf(s, s.tail) == None && s.head == s.tail
  {
    if |s.order| >= 2 { assert s.order[0] == s.tail && NextOf(s, s.order[0]) == Some(s.order[0 + 1]); }
  }

  /** How a `dequeue` that no producer disturbs goes on after its first one or two loads. */
  lemma AloneTillHead(s: State)
    requires Inv(s) && s.deq.Rest? && s.enq == map[]
    ensures var s1 := DoFirstLoad(s);
            var s2 := if s1.deq == PassedStub then DoSecondLoad(s1) else s1;
            && (Fifo(s) == [] ==> s2.deq == Rest(Empty) && Fifo(s2) == [])
            && (Fifo(s) != [] ==>
                  || (s2.deq == CheckHead && s2.order == [s2.tail] && Fifo(s) == [s2.tail])
                  || (s2.deq == Rest(Data(Fifo(s)[0])) && Fifo(s2) == Fifo(s)[1..]))
  {
    QuietLinks(s);
    FifoDropFirst(s);
    var s1 := DoFirstLoad(s);
    KeepsFirstLoad(s);
    if s1.deq == PassedStub {
      QuietLinks(s1);
      FifoDropFirst(s1);
      assert s1.tail in s1.order;
    }
    assert NonStub([]) == [];
    if |s1.order| == 1 { assert s1.order == [s1.tail]; }
  }

  /** t is enqueueing n and has yet to swap it in. */
  predicate Enqueueing(s: State, t: Tid, n: Node) { t in s.enq && s.enq[t] == Cleared(n) }

  lemma EnqueueingStays(s: State, e: Step, t: Tid, n: Node)
    requires Enabled(s, e) && Enqueueing(s, t, n) && e != SwapHeadStep(t)
    ensures Enqueueing(Apply(s, e), t, n)
  {
    match e
    case ClearNextStep(_, _) => case SwapHeadStep(_) => case LinkPrevStep(_) => case FirstLoadStep => case SecondLoadStep =>
    case CheckHeadStep => case ClearStubStep => case SwapStubStep => case LinkStubStep => case LastLookStep =>
  }

  lemma EnqueuesNow(s: State, t: Tid, n: Node)
    requires Enabled(s, SwapHeadStep(t)) && Enqueueing(s, t, n)
    ensures Apply(s, SwapHeadStep(t)).enqueued == s.enqueued + [n]
  {
  }

  /** What `enqueue(n)` puts into the queue is n. */
  lemma EnqueuesItsArgument(r: Run<State, Step>, i: nat, j: nat, t: Tid, n: Node)
    requires IsRun(IsInit, Next, r) && i < j < |r.steps| && r.steps[i] == ClearNextStep(t, n) && r.steps[j] == SwapHeadStep(t)
    requires forall k :: i < k < j ==> r.steps[k] != SwapHeadStep(t)
    ensures r.states[j + 1].enqueued == r.states[j].enqueued + [n]
  {
    assert Next(r.states[i], r.steps[i], r.states[i + 1]);
    var keep := (s: State) => Enqueueing(s, t, n);
    forall k | i + 1 <= k < j && keep(r.states[k]) ensures keep(r.states[k + 1]) {
      assert Next(r.states[k], r.steps[k], r.states[k + 1]);
      EnqueueingStays(r.states[k], r.steps[k], t, n);
    }
    Persistence(keep, r, i + 1, j);
    assert Next(r.states[j], r.steps[j], r.states[j + 1]);
    EnqueuesNow(r.states[j], t, n);
  }

  /** Exactly once, in order: in every state of every run the nodes handed out so far,
      followed by the nodes in the queue, are the nodes enqueued so far, each as often as it
      was enqueued, in the order of the head swaps; and the stub is among neither. */
  lemma ExactlyOnceInOrder(r: Run<State, Step>, k: nat)
    requires IsRun(IsInit, Next, r) && k < |r.states|
    ensures Inv(r.states[k])
    ensures r.states[k].enqueued == r.states[k].dequeued + Fifo(r.states[k])
    ensures STUB !in r.states[k].enqueued
  {
    InitInv();
    var inv := (s: State) => Inv(s) && STUB !in s.enqueued;
    forall s, e, s' | inv(s) && Next(s, e, s') ensures inv(s') {
      KeepsInv(s, e);
      if e.SwapHeadStep? { assert ProducerOk(s, e.t); }
    }
    Invariance(IsInit, Next, inv, r, k);
  }

  // ----- the object itself -----

  class ReadyToRunQueue {
    var head: Node
    var tail: Node
    var nextReadyToRun: map<Node, Option<Node>>
    var enq: map<Tid, EnqueuePc>
    var deq: DequeuePc
    ghost var order: seq<Node>
    ghost var enqueued: seq<Node>
    ghost var dequeued: seq<Node>

    ghost function View(): State
      reads this
    {
      State(head, tail, nextReadyToRun, enq, deq, order, enqueued, dequeued)
    }

    ghost predicate Valid()
      reads this
    {
      Inv(View())
    }

    constructor ()
      ensures View() == Init && Valid()
    {
      head, tail, nextReadyToRun := STUB, STUB, map[];
      enq, deq := map[], Rest(Empty);
      order, enqueued, dequeued := [STUB], [], [];
      new;
      InitInv();
    }

    /** `next_ready_to_run.store(null)` of `enqueue`. */
    method ClearNext(t: Tid, n: Node)
      requires Valid() && t !in enq && CanEnqueue(View(), n)
      modifies this
      ensures View() == DoClearNext(old(View()), t, n) && Valid()
    {
      KeepsClearNext(View(), t, n);
      nextReadyToRun := nextReadyToRun[n := None];
      enq := enq[t := Cleared(n)];
    }

    /** `head.swap(task)` of `enqueue`. */
    method SwapHead(t: Tid)
      requires Valid() && t in enq && enq[t].Cleared?
      modifies this
      ensures View() == DoSwapHead(old(View()), t) && Valid()
    {
      KeepsSwapHead(View(), t);
      var n := enq[t].node;
      var prev := head;
      head := n;
      enq := enq[t := Swapped(n, prev)];
      order, enqueued := order + [n], enqueued + [n];
    }

    /** `(*prev).next_ready_to_run.store(task)` of `enqueue`. */
    method LinkPrev(t: Tid)
      requires Valid() && t in enq && enq[t].Swapped?
      modifies this
      ensures View() == DoLinkPrev(old(View()), t) && Valid()
    {
      KeepsLinkPrev(View(), t);
      nextReadyToRun := nextReadyToRun[enq[t].prev := Some(enq[t].node)];
      enq := enq - {t};
    }

    method LoadNext() returns (nxt: Option<Node>)
      ensures nxt == NextOf(View(), tail)
    {
      nxt := if tail in nextReadyToRun then nextReadyToRun[tail] else None;
    }

    method TakeTail(nxt: Node)
      requires Valid() && !deq.LinkStub? && tail != STUB && NextOf(View(), tail) == Some(nxt)
      modifies this
      ensures View() == HandOut(old(View()), nxt) && Valid()
    {
      KeepsHandOut(View(), nxt);
      var task := tail;
      tail := nxt;
      deq := Rest(Data(task));
      order, dequeued := order[1..], dequeued + [task];
    }

    /** The first load of `dequeue`. */
    method FirstLoad()
      requires Valid() && deq.Rest?
      modifies this
      ensures View() == DoFirstLoad(old(View())) && Valid()
    {
      KeepsFirstLoad(View());
      var nxt := LoadNext();
      if tail == STUB {
        if nxt == None {
          deq := Rest(Empty);
        } else {
          tail := nxt.value;
          deq := PassedStub;
          order := order[1..];
        }
      } else if nxt.Some? {
        TakeTail(nxt.value);
      } else {
        deq := CheckHead;
      }
    }

    method SecondLoad()
      requires Valid() && deq == PassedStub
      modifies this
      ensures View() == DoSecondLoad(old(View())) && Valid()
    {
      KeepsSecondLoad(View());
      assert tail in order;
      var nxt := LoadNext();
      if nxt.Some? {
        TakeTail(nxt.value);
      } else {
        deq := CheckHead;
      }
    }

    method LoadHead()
      requires Valid() && deq == CheckHead
      modifies this
      ensures View() == DoCheckHead(old(View())) && Valid()
    {
      KeepsCheckHead(View());
      deq := if head == tail then ClearStub else Rest(Inconsistent);
    }

    /** `enqueue(stub)` as called by `dequeue`, first step. */
    method ClearStubNext()
      requires Valid() && deq == ClearStub
      modifies this
      ensures View() == DoClearStub(old(View())) && Valid()
    {
      KeepsClearStub(View());
      nextReadyToRun := nextReadyToRun[STUB := None];
      deq := SwapStub;
    }

    method SwapInStub()
      requires Valid() && deq == SwapStub
      modifies this
      ensures View() == DoSwapStub(old(View())) && Valid()
    {
      KeepsSwapStub(View());
      deq := LinkStub(head);
      head := STUB;
      order := order + [STUB];
    }

    method LinkPrevToStub()
      requires Valid() && deq.LinkStub?
      modifies this
      ensures View() == DoLinkStub(old(View())) && Valid()
    {
      KeepsLinkStub(View());
      nextReadyToRun := nextReadyToRun[deq.prev := Some(STUB)];
      deq := LastLook;
    }

    method LookAgain()
      requires Valid() && deq == LastLook
      modifies this
      ensures View() == DoLastLook(old(View())) && Valid()
    {
      KeepsLastLook(View());
      var nxt := LoadNext();
      if nxt.Some? {
        TakeTail(nxt.value);
      } else {
        deq := Rest(Inconsistent);
      }
    }

    /** A whole `dequeue` with no producer inside `enqueue`: never inconsistent, empty
        exactly when the queue is empty, and otherwise the oldest node. */
    method DequeueAlone() returns (r: Dequeue)
      requires Valid() && deq.Rest? && enq == map[]
      modifies this
      ensures Valid() && deq.Rest? && enq == map[]
      ensures r == if old(Fifo(View())) == [] then Empty else Data(old(Fifo(View()))[0])
      ensures Fifo(View()) == if old(Fifo(View())) == [] then [] else old(Fifo(View()))[1..]
      ensures enqueued == old(enqueued)
    {
      AloneTillHead(View());
      FirstLoad();
      if deq == PassedStub {
        SecondLoad();
      }
      if deq == CheckHead {
        ReinsertStub();
      }
      r := deq.r;
    }

    /** The second half of `dequeue`: the last node leaves once the stub is behind it. */
    method ReinsertStub()
      requires Valid() && deq == CheckHead && enq == map[] && |order| == 1
      modifies this
      ensures Valid() && enq == map[] && deq == Rest(Data(old(tail)))
      ensures Fifo(View()) == [] && enqueued == old(enqueued)
    {
      QuietLinks(View());
      LoadHead();
      ClearStubNext();
      SwapInStub();
      LinkPrevToStub();
      QuietLinks(View());
      assert order[1..] == [STUB];
      assert NonStub([STUB]) == [];
      LookAgain();
    }

    /** `ReadyToRunQueue::drop`: drains the queue; the abort on `Inconsistent` is never
        reached, and each node left is released once, in order. */
    method Drain() returns (freed: seq<Node>)
      requires Valid() && deq.Rest? && enq == map[]
      modifies this
      ensures Valid() && Fifo(View()) == []
      ensures freed == old(Fifo(View()))
    {
      freed := [];
      var r := DequeueAlone();
      ghost var all := old(Fifo(View()));
      while r != Empty
        invariant Valid() && deq.Rest? && enq == map[]
        invariant r != Inconsistent
        invariant r.Data? ==> all == freed + ([r.node] + Fifo(View()))
        invariant r.Empty? ==> all == freed && Fifo(View()) == []
        decreases if r.Empty? then 0 else 1 + |Fifo(View())|
      {
        ghost var rest := Fifo(View());
        Regroup(freed, [r.node], rest);
        FirstAndRest(rest);
        freed := freed + [r.node];
        r := DequeueAlone();
      }
    }
  }
}
