/** The non-intrusive multi-producer single-consumer queue of futures-channel/src/mpsc/queue.rs.

    The head swap and the link of `push`, and the two loads of `pop`, are separate steps.  A
    node that the consumer has boxed out of existence leaves `value`; its address may be used
    again by a later push.  The queue is shown to simulate a plain sequence of slots, each
    with a value and, until its link is written, the thread that owes the link. */
module MessageQueues {
  import opened Runs
  import opened Chains

  /** A thread inside `push`. */
  datatype PushPc =
    | Created(node: Node)                // the node is allocated, and private
    | Swapped(node: Node, prev: Node)    // it is the head; the link from prev is due

  datatype PopResult<T> = Data(value: T) | Empty | Inconsistent

  /** The consumer: at rest with what `pop` returned last, or about to load the head. */
  datatype PopPc<T> = Rest(r: PopResult<T>) | LookAtHead

  datatype State<T> = State(
    head: Node,
    tail: Node,
    next: map<Node, Option<Node>>,
    value: map<Node, Option<T>>,         // the live nodes and their values
    push: map<Tid, PushPc>,
    pop: PopPc<T>,
    order: seq<Node>,                    // the chain from tail to head
    pushed: seq<T>,                      // every value, in the order of the head swaps
    popped: seq<T>)                      // every value handed out, in order

  function Init<T>(stub: Node): State<T> {
    State(stub, stub, map[stub := None], map[stub := None], map[], Rest(Empty), [stub], [], [])
  }

  function NextOf<T>(s: State<T>, n: Node): Option<Node> {
    if n in s.next then s.next[n] else None
  }

  /** The values in the queue: those of the chain behind the consumed tail node. */
  function Values<T>(value: map<Node, Option<T>>, q: seq<Node>): seq<T> {
    if q == [] then []
    else (if q[0] in value && value[q[0]].Some? then [value[q[0]].value] else []) + Values(value, q[1..])
  }

  function Fifo<T>(s: State<T>): seq<T> {
    if s.order == [] then [] else Values(s.value, s.order[1..])
  }

  // ----- steps -----

  /** `Node::new(Some(t))`. */
  function DoCreate<T>(s: State<T>, t: Tid, n: Node, x: T): State<T> {
    s.(next := s.next[n := None], value := s.value[n := Some(x)], push := s.push[t := Created(n)])
  }

  function DoSwap<T>(s: State<T>, t: Tid): State<T>
    requires t in s.push && s.push[t].Created? && s.push[t].node in s.value && s.value[s.push[t].node].Some?
  {
    var n := s.push[t].node;
    s.(head := n, push := s.push[t := Swapped(n, s.head)], order := s.order + [n],
    pushed := s.pushed + [s.value[n].value])
  }

  function DoLink<T>(s: State<T>, t: Tid): State<T>
    requires t in s.push && s.push[t].Swapped?
  {
    s.(next := s.next[s.push[t].prev := Some(s.push[t].node)], push := s.push - {t})
  }

  /** Both `assert!`s of `pop`. */
  predicate PopAsserts<T>(s: State<T>, nxt: Node) {
    s.tail in s.value && s.value[s.tail].None? && nxt in s.value && s.value[nxt].Some?
  }

  /** The first load of `pop`; with a next node, its value is taken and the old tail is freed. */
  function DoPopNext<T>(s: State<T>): State<T>
    requires NextOf(s, s.tail).Some? ==> PopAsserts(s, NextOf(s, s.tail).value)
  {
    match NextOf(s, s.tail)
    case None => s.(pop := LookAtHead)
    case Some(nxt) =>
      var x := s.value[nxt].value;
      s.(tail := nxt, value := s.value[nxt := None] - {s.tail}, next := s.next - {s.tail},
      pop := Rest(Data(x)), order := if s.order == [] then [] else s.order[1..], popped := s.popped + [x])
  }

  function DoPopHead<T>(s: State<T>): State<T> {
    s.(pop := Rest(if s.head == s.tail then Empty else Inconsistent))
  }

  datatype Step<T> =
    | CreateStep(t: Tid, n: Node, x: T) | SwapStep(t: Tid) | LinkStep(t: Tid) | PopNextStep | PopHeadStep

  predicate Enabled<T>(s: State<T>, e: Step<T>) {
    match e
    case CreateStep(t, n, _) => t !in s.push && n !in s.value
    case SwapStep(t) => t in s.push && s.push[t].Created? && s.push[t].node in s.value && s.value[s.push[t].node].Some?
    case LinkStep(t) => t in s.push && s.push[t].Swapped?
    case PopNextStep => s.pop.Rest? && (NextOf(s, s.tail).Some? ==> PopAsserts(s, NextOf(s, s.tail).value))
    case PopHeadStep => s.pop.LookAtHead?
  }

  function Apply<T>(s: State<T>, e: Step<T>): State<T>
    requires Enabled(s, e)
  {
    match e
    case CreateStep(t, n, x) => DoCreate(s, t, n, x)
    case SwapStep(t) => DoSwap(s, t)
    case LinkStep(t) => DoLink(s, t)
    case PopNextStep => DoPopNext(s)
    case PopHeadStep => DoPopHead(s)
  }

  ghost predicate IsInit<T>(s: State<T>) { exists stub :: s == Init(stub) }

  ghost predicate Next<T>(s: State<T>, e: Step<T>, s': State<T>) {
    Enabled(s, e) && s' == Apply(s, e)
  }

  // ----- the invariant -----

  ghost predicate LinkDue(push: map<Tid, PushPc>, p: Node, n: Node) {
    exists t :: t in push && push[t] == Swapped(n, p)
  }

  ghost predicate ChainShape<T>(s: State<T>) {
    && s.order != [] && NoDuplicates(s.order)
    && s.order[0] == s.tail && s.order[|s.order| - 1] == s.head
    && NextOf(s, s.head) == None
  }

  ghost predicate ChainLinks<T>(s: State<T>) {
    forall i :: 0 <= i < |s.order| - 1 ==>
      || NextOf(s, s.order[i]) == Some(s.order[i + 1])
      || (NextOf(s, s.order[i]) == None && LinkDue(s.push, s.order[i], s.order[i + 1]))
  }

  /** The tail node is consumed; every later node of the chain holds its value. */
  ghost predicate ChainValues<T>(value: map<Node, Option<T>>, order: seq<Node>) {
    && (forall i :: 0 <= i < |order| ==> order[i] in value)
    && (forall i :: 0 <= i < |order| ==> (value[order[i]].None? <==> i == 0))
  }

  ghost predicate PusherOk<T>(s: State<T>, t: Tid)
    requires t in s.push
  {
    match s.push[t]
    case Created(n) => n !in s.order && n in s.value && s.value[n].Some? && NextOf(s, n) == None
    case Swapped(n, p) => Adjacent(s.order, p, n) && NextOf(s, p) == None
  }

  ghost predicate Pushers<T>(s: State<T>) {
    && (forall t :: t in s.push ==> PusherOk(s, t))
    && (forall t, u :: t in s.push && u in s.push && s.push[t].node == s.push[u].node ==> t == u)
  }

  ghost predicate History<T>(s: State<T>) { s.pushed == s.popped + Fifo(s) }

  ghost predicate Inv<T>(s: State<T>) {
    && ChainShape(s) && ChainLinks(s) && ChainValues(s.value, s.order) && Pushers(s) && History(s)
  }

  lemma {:induction false} ValuesSame<T>(value: map<Node, Option<T>>, value': map<Node, Option<T>>, q: seq<Node>)
    requires forall n :: n in q && n in value ==> n in value' && value'[n] == value[n]
    requires forall n :: n in q && n in value' ==> n in value
    ensures Values(value', q) == Values(value, q)
  {
    if q != [] {
      assert forall n :: n in q[1..] ==> n in q;
      ValuesSame(value, value', q[1..]);
    }
  }

  lemma {:induction false} ValuesAppend<T>(value: map<Node, Option<T>>, q: seq<Node>, n: Node)
    requires n in value && value[n].Some?
    ensures Values(value, q + [n]) == Values(value, q) + [value[n].value]
  {
    if q == [] {
      assert [n][1..] == [];
      assert q + [n] == [n];
    } else {
      assert (q + [n])[1..] == q[1..] + [n];
      ValuesAppend(value, q[1..], n);
    }
  }

  /** An address that is not in use is unknown to the chain and to every thread. */
  lemma UnusedIsUnknown<T>(s: State<T>, n: Node)
    requires Inv(s) && n !in s.value
    ensures n !in s.order
    ensures forall u :: u in s.push ==> s.push[u].node != n && (s.push[u].Swapped? ==> s.push[u].prev != n)
  {
    forall u | u in s.push ensures s.push[u].node != n && (s.push[u].Swapped? ==> s.push[u].prev != n) {
      assert PusherOk(s, u);
      if s.push[u].Swapped? { AdjacentMembers(s.order, s.push[u].prev, s.push[u].node); }
    }
  }

  lemma LinksFrame<T>(s: State<T>, s': State<T>)
    requires ChainLinks(s) && s'.order == s.order
    requires forall i :: 0 <= i < |s.order| - 1 ==> NextOf(s', s.order[i]) == NextOf(s, s.order[i])
    requires forall t :: t in s.push && s.push[t].Swapped? ==> t in s'.push && s'.push[t] == s.push[t]
    ensures ChainLinks(s')
  {
    forall i | 0 <= i < |s.order| - 1 && LinkDue(s.push, s.order[i], s.order[i + 1])
      ensures LinkDue(s'.push, s.order[i], s.order[i + 1])
    {
      var u :| u in s.push && s.push[u] == Swapped(s.order[i + 1], s.order[i]);
      assert s'.push[u] == s.push[u];
    }
  }

  lemma KeepsCreate<T>(s: State<T>, t: Tid, n: Node, x: T)
    requires Inv(s) && Enabled(s, CreateStep(t, n, x))
    ensures Inv(DoCreate(s, t, n, x))
  {
    var s' := DoCreate(s, t, n, x);
    UnusedIsUnknown(s, n);
    LinksFrame(s, s');
    forall u | u in s'.push ensures PusherOk(s', u) {
      if u != t { assert PusherOk(s, u); }
    }
    ValuesSame(s.value, s'.value, s.order[1..]);
  }

  lemma SwapHistory<T>(s: State<T>, t: Tid)
    requires Enabled(s, SwapStep(t)) && s.order != [] && History(s)
    ensures History(DoSwap(s, t))
  {
    var n := s.push[t].node;
    ValuesAppend(s.value, s.order[1..], n);
    assert (s.order + [n])[1..] == s.order[1..] + [n];
    assert s.popped + (Fifo(s) + [s.value[n].value]) == (s.popped + Fifo(s)) + [s.value[n].value];
  }

  lemma SwapLinks<T>(s: State<T>, t: Tid)
    requires Inv(s) && Enabled(s, SwapStep(t))
    ensures ChainLinks(DoSwap(s, t))
  {
    var s' := DoSwap(s, t);
    forall i | 0 <= i < |s'.order| - 1
      ensures || NextOf(s', s'.order[i]) == Some(s'.order[i + 1])
              || (NextOf(s', s'.order[i]) == None && LinkDue(s'.push, s'.order[i], s'.order[i + 1]))
    {
      if i == |s.order| - 1 {
        assert s'.push[t] == Swapped(s'.order[i + 1], s'.order[i]);
      } else {
        assert s'.order[i] == s.order[i] && s'.order[i + 1] == s.order[i + 1];
        if NextOf(s, s.order[i]) == None {
          var u :| u in s.push && s.push[u] == Swapped(s.order[i + 1], s.order[i]);
          assert s'.push[u] == s.push[u];
        }
      }
    }
  }

  lemma KeepsSwap<T>(s: State<T>, t: Tid)
    requires Inv(s) && Enabled(s, SwapStep(t))
    ensures Inv(DoSwap(s, t))
  {
    var s' := DoSwap(s, t);
    assert PusherOk(s, t);
    SwapHistory(s, t);
    SwapLinks(s, t);
    AdjacentAppend(s.order, s.push[t].node);
    forall u | u in s'.push ensures PusherOk(s', u) { assert PusherOk(s, u); }
  }

  lemma KeepsLink<T>(s: State<T>, t: Tid)
    requires Inv(s) && Enabled(s, LinkStep(t))
    ensures Inv(DoLink(s, t))
  {
    assert PusherOk(s, t);
    LinkPushers(s, t);
    LinkLinks(s, t);
  }

  lemma LinkPushers<T>(s: State<T>, t: Tid)
    requires Inv(s) && Enabled(s, LinkStep(t))
    ensures forall u :: u in DoLink(s, t).push ==> PusherOk(DoLink(s, t), u)
  {
    var s' := DoLink(s, t);
    assert PusherOk(s, t);
    forall u | u in s'.push ensures PusherOk(s', u) {
      assert PusherOk(s, u);
      if s.push[u].Swapped? { AdjacentInjective(s.order, s.push[t].prev, s.push[t].node, s.push[u].prev, s.push[u].node); }
    }
  }

  lemma LinkLinks<T>(s: State<T>, t: Tid)
    requires Inv(s) && Enabled(s, LinkStep(t))
    ensures ChainLinks(DoLink(s, t))
  {
    var s' := DoLink(s, t);
    var Swapped(n, p) := s.push[t];
    assert PusherOk(s, t);
    var j :| 0 <= j < |s.order| - 1 && s.order[j] == p && s.order[j + 1] == n;
    forall i | 0 <= i < |s.order| - 1
      ensures || NextOf(s', s.order[i]) == Some(s.order[i + 1])
              || (NextOf(s', s.order[i]) == None && LinkDue(s'.push, s.order[i], s.order[i + 1]))
    {
      if i != j && NextOf(s, s.order[i]) == None {
        var u :| u in s.push && s.push[u] == Swapped(s.order[i + 1], s.order[i]);
        assert u in s'.push && s'.push[u] == s.push[u];
      }
    }
  }

  /** Taking the first value of a chain behind its consumed node. */
  lemma ValuesDropFirst<T>(value: map<Node, Option<T>>, value': map<Node, Option<T>>, rest: seq<Node>)
    requires rest != [] && rest[0] in value && value[rest[0]].Some?
    requires forall n :: n in rest[1..] && n in value ==> n in value' && value'[n] == value[n]
    requires forall n :: n in rest[1..] && n in value' ==> n in value
    ensures Values(value, rest) == [value[rest[0]].value] + Values(value', rest[1..])
  {
    ValuesSame(value, value', rest[1..]);
  }

  lemma PopHistory<T>(s: State<T>, nxt: Node)
    requires Enabled(s, PopNextStep) && NextOf(s, s.tail) == Some(nxt)
    requires History(s) && NoDuplicates(s.order) && |s.order| >= 2 && s.order[0] == s.tail && s.order[1] == nxt
    ensures History(DoPopNext(s))
    ensures Fifo(s) == [s.value[nxt].value] + Fifo(DoPopNext(s))
  {
    var s' := DoPopNext(s);
    var rest := s.order[1..];
    assert forall i :: 0 <= i < |rest[1..]| ==> rest[1..][i] == s.order[i + 2];
    ValuesDropFirst(s.value, s'.value, rest);
    assert s.popped + ([s.value[nxt].value] + Fifo(s')) == (s.popped + [s.value[nxt].value]) + Fifo(s');
  }

  /** With its link written, the node behind tail is the next one of the chain. */
  lemma SecondIsNext<T>(s: State<T>, nxt: Node)
    requires Inv(s) && NextOf(s, s.tail) == Some(nxt)
    ensures |s.order| >= 2 && s.order[1] == nxt && PopAsserts(s, nxt)
  {
    assert |s.order| >= 2;
    assert s.order[0] == s.tail && s.order[0 + 1] == nxt;
  }

  lemma PopShape<T>(s: State<T>, nxt: Node)
    requires Inv(s) && Enabled(s, PopNextStep) && NextOf(s, s.tail) == Some(nxt)
    ensures ChainShape(DoPopNext(s)) && ChainLinks(DoPopNext(s)) && ChainValues(DoPopNext(s).value, DoPopNext(s).order)
  {
    var s' := DoPopNext(s);
    SecondIsNext(s, nxt);
    assert forall i :: 0 <= i < |s'.order| ==> s'.order[i] == s.order[i + 1] && s'.order[i] != s.tail;
    forall i | 0 <= i < |s'.order| - 1
      ensures || NextOf(s', s'.order[i]) == Some(s'.order[i + 1])
              || (NextOf(s', s'.order[i]) == None && LinkDue(s'.push, s'.order[i], s'.order[i + 1]))
    {
      assert s'.order[i] == s.order[i + 1] && s'.order[i + 1] == s.order[i + 1 + 1];
    }
  }

  lemma KeepsPopNext<T>(s: State<T>)
    requires Inv(s) && Enabled(s, PopNextStep)
    ensures Inv(DoPopNext(s))
  {
    var s' := DoPopNext(s);
    match NextOf(s, s.tail)
    case None => forall u | u in s'.push ensures PusherOk(s', u) { assert PusherOk(s, u); }
    case Some(nxt) =>
      SecondIsNext(s, nxt);
      PopShape(s, nxt);
      PopHistory(s, nxt);
      forall u | u in s'.push ensures PusherOk(s', u) {
        assert PusherOk(s, u);
        if s.push[u].Swapped? { AdjacentDropFirst(s.order, s.push[u].prev, s.push[u].node); }
      }
  }

  lemma KeepsPopHead<T>(s: State<T>)
    requires Inv(s) && Enabled(s, PopHeadStep)
    ensures Inv(DoPopHead(s))
  {
    forall u | u in s.push ensures PusherOk(DoPopHead(s), u) { assert PusherOk(s, u); }
  }

  lemma KeepsInv<T>(s: State<T>, e: Step<T>)
    requires Inv(s) && Enabled(s, e)
    ensures Inv(Apply(s, e))
  {
    match e
    case CreateStep(t, n, x) => KeepsCreate(s, t, n, x);
    case SwapStep(t) => KeepsSwap(s, t);
    case LinkStep(t) => KeepsLink(s, t);
    case PopNextStep => KeepsPopNext(s);
    case PopHeadStep => KeepsPopHead(s);
  }

  lemma InitInv<T>(stub: Node)
    ensures Inv<T>(Init(stub))
  {
  }

  // ----- what the queue promises -----

  /** The asserts of `pop` hold, so a step of the consumer is always possible. */
  lemma PopNeverPanics<T>(s: State<T>)
    requires Inv(s)
    ensures s.pop.Rest? ==> Enabled(s, PopNextStep)
    ensures s.pop.LookAtHead? ==> Enabled(s, PopHeadStep)
  {
    if NextOf(s, s.tail).Some? { SecondIsNext(s, NextOf(s, s.tail).value); }
  }

  /** The node that `pop` frees is neither in the chain nor known to any thread inside `push`. */
  lemma FreedNodeIsUnreachable<T>(s: State<T>, nxt: Node)
    requires Inv(s) && Enabled(s, PopNextStep) && NextOf(s, s.tail) == Some(nxt)
    ensures s.tail !in DoPopNext(s).order
    ensures forall t :: t in s.push ==> s.push[t].node != s.tail && (s.push[t].Swapped? ==> s.push[t].prev != s.tail)
  {
    SecondIsNext(s, nxt);
    forall t | t in s.push ensures s.push[t].node != s.tail && (s.push[t].Swapped? ==> s.push[t].prev != s.tail) {
      assert PusherOk(s, t);
    }
  }

  /** Exactly once, in order, in every state of every run. */
  lemma ExactlyOnceInOrder<T(!new)>(r: Run<State<T>, Step<T>>, k: nat)
    requires IsRun<State<T>, Step<T>>(IsInit, Next, r) && k < |r.states|
    ensures Inv(r.states[k]) && r.states[k].pushed == r.states[k].popped + Fifo(r.states[k])
  {
    forall s: State<T> | IsInit(s) ensures Inv(s) {
      var stub :| s == Init(stub);
      InitInv<T>(stub);
    }
    forall s: State<T>, e: Step<T>, s': State<T> | Inv(s) && Next(s, e, s') ensures Inv(s') {
      KeepsInv(s, e);
    }
    Invariance<State<T>, Step<T>>(IsInit, Next, Inv, r, k);
  }

  /** t is inside `push`, with x in its node n. */
  ghost predicate Pushing<T>(s: State<T>, t: Tid, n: Node, x: T) {
    t in s.push && s.push[t] == Created(n) && n in s.value && s.value[n] == Some(x)
  }

  lemma PushingStays<T>(s: State<T>, e: Step<T>, s': State<T>, t: Tid, n: Node, x: T)
    requires Inv(s) && Next(s, e, s') && Pushing(s, t, n, x) && e != SwapStep(t)
    ensures Pushing(s', t, n, x)
  {
    assert PusherOk(s, t);
    if e.PopNextStep? && NextOf(s, s.tail).Some? { SecondIsNext(s, NextOf(s, s.tail).value); }
  }

  /** The value given to `push` in step i is still that of its node when t swaps the head, in step j. */
  lemma {:induction false} PushingUntilSwap<T(!new)>(r: Run<State<T>, Step<T>>, i: nat, j: nat, t: Tid, n: Node, x: T)
    requires IsRun<State<T>, Step<T>>(IsInit, Next, r) && i < j < |r.states|
    requires r.steps[i] == CreateStep(t, n, x)
    requires forall k :: i < k < j ==> r.steps[k] != SwapStep(t)
    ensures Pushing(r.states[j], t, n, x)
    decreases j
  {
    assert Next(r.states[j - 1], r.steps[j - 1], r.states[j - 1 + 1]);
    if j - 1 > i {
      PushingUntilSwap(r, i, j - 1, t, n, x);
      ExactlyOnceInOrder(r, j - 1);
      PushingStays(r.states[j - 1], r.steps[j - 1], r.states[j], t, n, x);
    }
  }

  /** What `push(x)` enqueues is x: the call that t begins in step i adds x, when it swaps the
      head in step j, to the values pushed. */
  lemma PushesItsArgument<T(!new)>(r: Run<State<T>, Step<T>>, i: nat, j: nat, t: Tid, n: Node, x: T)
    requires IsRun<State<T>, Step<T>>(IsInit, Next, r) && i < j < |r.steps|
    requires r.steps[i] == CreateStep(t, n, x) && r.steps[j] == SwapStep(t)
    requires forall k :: i < k < j ==> r.steps[k] != SwapStep(t)
    ensures r.states[j + 1].pushed == r.states[j].pushed + [x]
  {
    PushingUntilSwap(r, i, j, t, n, x);
    assert Next(r.states[j], r.steps[j], r.states[j + 1]);
  }

  // ----- simulation of a plain sequence -----

  /** One element of the queue; `linker` is the thread that has still to write its link. */
  datatype Slot<T> = Slot(value: T, linker: Option<Tid>)

  ghost predicate SlotOk<T>(s: State<T>, i: nat, x: Slot<T>)
    requires i + 1 < |s.order|
  {
    && s.order[i + 1] in s.value && s.value[s.order[i + 1]] == Some(x.value)
    && match x.linker
       case None => NextOf(s, s.order[i]) == Some(s.order[i + 1])
       case Some(t) => NextOf(s, s.order[i]) == None && t in s.push && s.push[t] == Swapped(s.order[i + 1], s.order[i])
  }

  /** The chain behind the consumed node is the sequence `a`. */
  ghost predicate Represents<T>(s: State<T>, a: seq<Slot<T>>) {
    && |a| + 1 == |s.order|
    && (forall i :: 0 <= i < |a| ==> SlotOk(s, i, a[i]))
    && (forall t :: t in s.push && s.push[t].Swapped? ==> exists i :: 0 <= i < |a| && a[i].linker == Some(t))
  }

  /** `push`, second step: the slot that t linked. */
  function Linked<T>(a: seq<Slot<T>>, t: Tid): (r: seq<Slot<T>>)
    ensures |r| == |a|
    ensures forall i :: 0 <= i < |a| ==> r[i] == if a[i].linker == Some(t) then a[i].(linker := None) else a[i]
  {
    seq(|a|, i requires 0 <= i < |a| => if a[i].linker == Some(t) then a[i].(linker := None) else a[i])
  }

  /** The effect of each step on the plain sequence. */
  function Abstractly<T>(a: seq<Slot<T>>, s: State<T>, e: Step<T>): seq<Slot<T>>
    requires Enabled(s, e)
  {
    match e
    case CreateStep(_, _, _) => a
    case SwapStep(t) => a + [Slot(s.value[s.push[t].node].value, Some(t))]
    case LinkStep(t) => Linked(a, t)
    case PopNextStep => if a != [] && a[0].linker == None then a[1..] else a
    case PopHeadStep => a
  }

  /** What the consumer is told about the plain sequence. */
  ghost predicate AnswerIsRight<T>(a: seq<Slot<T>>, s: State<T>, e: Step<T>)
    requires Enabled(s, e)
  {
    var p := Apply(s, e).pop;
    match e
    case PopNextStep =>
      if a != [] && a[0].linker == None then p == Rest(Data(a[0].value)) else p == LookAtHead
    case PopHeadStep => p == Rest(if a == [] then Empty else Inconsistent)
    case _ => p == s.pop
  }

  lemma SimulatesSwap<T>(s: State<T>, a: seq<Slot<T>>, t: Tid)
    requires Inv(s) && Represents(s, a) && Enabled(s, SwapStep(t))
    ensures Represents(DoSwap(s, t), Abstractly(a, s, SwapStep(t)))
  {
    var s', a' := DoSwap(s, t), Abstractly(a, s, SwapStep(t));
    forall i | 0 <= i < |a'| ensures SlotOk(s', i, a'[i]) {
      if i < |a| { assert SlotOk(s, i, a[i]); assert s'.order[i + 1] == s.order[i + 1] && s'.order[i] == s.order[i]; }
    }
    forall u | u in s'.push && s'.push[u].Swapped? ensures exists i :: 0 <= i < |a'| && a'[i].linker == Some(u) {
      if u == t {
        assert a'[|a|].linker == Some(t);
      } else {
        var i :| 0 <= i < |a| && a[i].linker == Some(u);
        assert a'[i].linker == Some(u);
      }
    }
  }

  lemma LinkSlot<T>(s: State<T>, a: seq<Slot<T>>, t: Tid, k: nat, i: nat)
    requires Inv(s) && |a| + 1 == |s.order| && Enabled(s, LinkStep(t)) && k < |a| && i < |a|
    requires SlotOk(s, k, a[k]) && a[k].linker == Some(t) && SlotOk(s, i, a[i])
    ensures SlotOk(DoLink(s, t), i, Linked(a, t)[i])
  {
    if i != k { assert s.order[i] != s.order[k] && s.order[i + 1] != s.order[k + 1]; }
  }

  lemma SimulatesLink<T>(s: State<T>, a: seq<Slot<T>>, t: Tid)
    requires Inv(s) && Represents(s, a) && Enabled(s, LinkStep(t))
    ensures Represents(DoLink(s, t), Linked(a, t))
  {
    var s', a' := DoLink(s, t), Linked(a, t);
    var k :| 0 <= k < |a| && a[k].linker == Some(t);
    forall i | 0 <= i < |a'| ensures SlotOk(s', i, a'[i]) {
      assert SlotOk(s, i, a[i]) && SlotOk(s, k, a[k]);
      LinkSlot(s, a, t, k, i);
    }
    forall u | u in s'.push && s'.push[u].Swapped? ensures exists i :: 0 <= i < |a'| && a'[i].linker == Some(u) {
      var i :| 0 <= i < |a| && a[i].linker == Some(u);
      assert a'[i].linker == Some(u);
    }
  }

  lemma SimulatesPop<T>(s: State<T>, a: seq<Slot<T>>)
    requires Inv(s) && Represents(s, a) && Enabled(s, PopNextStep)
    ensures Represents(DoPopNext(s), Abstractly(a, s, PopNextStep))
    ensures AnswerIsRight(a, s, PopNextStep)
  {
    var s', a' := DoPopNext(s), Abstractly(a, s, PopNextStep);
    if a != [] { assert SlotOk(s, 0, a[0]); }
    match NextOf(s, s.tail)
    case None =>
      forall i | 0 <= i < |a'| ensures SlotOk(s', i, a'[i]) { assert SlotOk(s, i, a[i]); }
    case Some(nxt) =>
      SecondIsNext(s, nxt);
      forall i | 0 <= i < |a'| ensures SlotOk(s', i, a'[i]) {
        assert SlotOk(s, i + 1, a[i + 1]);
        assert s.order[i + 1] != s.tail && s.order[i + 1 + 1] != nxt;
      }
      forall u | u in s'.push && s'.push[u].Swapped? ensures exists i :: 0 <= i < |a'| && a'[i].linker == Some(u) {
        var i :| 0 <= i < |a| && a[i].linker == Some(u);
        assert a'[i - 1].linker == Some(u);
      }
  }

  lemma SimulatesRest<T>(s: State<T>, a: seq<Slot<T>>, e: Step<T>)
    requires Inv(s) && Represents(s, a) && Enabled(s, e) && (e.CreateStep? || e.PopHeadStep?)
    ensures Represents(Apply(s, e), a)
    ensures AnswerIsRight(a, s, e)
  {
    var s' := Apply(s, e);
    forall i | 0 <= i < |a| ensures SlotOk(s', i, a[i]) {
      assert SlotOk(s, i, a[i]);
      if e.CreateStep? { assert s.order[i] in s.value && s.order[i + 1] in s.value; }
    }
    if e.PopHeadStep? { assert s.head == s.tail <==> |s.order| == 1; }
  }

  /** The concrete queue simulates the plain sequence, step by step, and tells the consumer the
      truth about it: the oldest value when its link is written, `Empty` exactly when there is
      none, `Inconsistent` only when there is one. */
  lemma Simulates<T>(s: State<T>, a: seq<Slot<T>>, e: Step<T>)
    requires Inv(s) && Represents(s, a) && Enabled(s, e)
    ensures Represents(Apply(s, e), Abstractly(a, s, e))
    ensures AnswerIsRight(a, s, e)
  {
    match e
    case SwapStep(t) => SimulatesSwap(s, a, t);
    case LinkStep(t) => SimulatesLink(s, a, t);
    case PopNextStep => SimulatesPop(s, a);
    case _ => SimulatesRest(s, a, e);
  }

  /** The steps of a plain sequence of slots. */
  datatype SlotStep<T> = Append(t: Tid, x: T) | WriteLink(t: Tid) | TakeOldest | Stutter

  ghost predicate NoSlots<T>(a: seq<Slot<T>>) { a == [] }

  ghost predicate SlotNext<T>(a: seq<Slot<T>>, e: SlotStep<T>, a': seq<Slot<T>>) {
    match e
    case Append(t, x) => a' == a + [Slot(x, Some(t))]
    case WriteLink(t) => a' == Linked(a, t)
    case TakeOldest => a != [] && a[0].linker == None && a' == a[1..]
    case Stutter => a' == a
  }

  function SlotStepOf<T>(a: seq<Slot<T>>, s: State<T>, e: Step<T>): SlotStep<T>
    requires Enabled(s, e)
  {
    match e
    case SwapStep(t) => Append(t, s.value[s.push[t].node].value)
    case LinkStep(t) => WriteLink(t)
    case PopNextStep => if a != [] && a[0].linker == None then TakeOldest else Stutter
    case _ => Stutter
  }

  lemma SimulatesStep<T>(s: State<T>, a: seq<Slot<T>>, e: Step<T>)
    requires Inv(s) && Represents(s, a) && Enabled(s, e)
    ensures SlotNext(a, SlotStepOf(a, s, e), Abstractly(a, s, e))
  {
  }

  lemma InitRepresents<T>(stub: Node)
    ensures Represents<T>(Init(stub), [])
  {
  }

  /** Up to state k the run r of the queue and the run x of plain sequences go side by side. */
  ghost predicate Alongside<T(!new)>(r: Run<State<T>, Step<T>>, x: Run<seq<Slot<T>>, SlotStep<T>>, k: nat) {
    && k < |r.states| == |r.steps| + 1
    && |x.steps| == k && IsRun<seq<Slot<T>>, SlotStep<T>>(NoSlots, SlotNext, x)
    && (forall i :: 0 <= i <= k ==> Represents(r.states[i], x.states[i]))
    && (forall i :: 0 <= i < k ==> MatchingStep(r.states[i], r.steps[i], x.states[i], x.steps[i]))
  }

  ghost predicate MatchingStep<T>(s: State<T>, e: Step<T>, a: seq<Slot<T>>, x: SlotStep<T>) {
    Enabled(s, e) && x == SlotStepOf(a, s, e) && AnswerIsRight(a, s, e)
  }

  ghost predicate SimulatedUpTo<T(!new)>(r: Run<State<T>, Step<T>>, k: nat) { exists x :: Alongside(r, x, k) }

  /** Every run of the queue is a run of a plain sequence that starts empty: it has the same
      appends, links and removals, and after each of its steps the consumer has been told the
      truth about the sequence. */
  lemma {:induction false} SimulatesRun<T(!new)>(r: Run<State<T>, Step<T>>, k: nat)
    requires IsRun<State<T>, Step<T>>(IsInit, Next, r) && k < |r.states|
    ensures SimulatedUpTo(r, k)
  {
    if k == 0 {
      var stub :| r.states[0] == Init(stub);
      InitRepresents<T>(stub);
      assert Alongside(r, Run([[]], []), 0);
    } else {
      SimulatesRun(r, k - 1);
      var x :| Alongside(r, x, k - 1);
      ExactlyOnceInOrder(r, k - 1);
      assert Next(r.states[k - 1], r.steps[k - 1], r.states[k - 1 + 1]);
      var s, e, a := r.states[k - 1], r.steps[k - 1], x.states[k - 1];
      Simulates(s, a, e);
      SimulatesStep(s, a, e);
      ExtendAlongside(r, x, k - 1, SlotStepOf(a, s, e), Abstractly(a, s, e));
    }
  }

  lemma ExtendAlongside<T(!new)>(
    r: Run<State<T>, Step<T>>, x: Run<seq<Slot<T>>, SlotStep<T>>, k: nat, e: SlotStep<T>, a: seq<Slot<T>>)
    requires Alongside(r, x, k) && k < |r.steps|
    requires SlotNext(x.states[k], e, a) && Represents(r.states[k + 1], a)
    requires MatchingStep(r.states[k], r.steps[k], x.states[k], e)
    ensures SimulatedUpTo(r, k + 1)
  {
    RunExtends<seq<Slot<T>>, SlotStep<T>>(NoSlots, SlotNext, x, e, a);
    assert Alongside(r, Extended(x, e, a), k + 1);
  }

  /** In that run of plain sequences, too, the value appended is the argument of `push`. */
  lemma AppendsItsArgument<T(!new)>(
    r: Run<State<T>, Step<T>>, x: Run<seq<Slot<T>>, SlotStep<T>>, i: nat, j: nat, k: nat, t: Tid, n: Node, v: T)
    requires IsRun<State<T>, Step<T>>(IsInit, Next, r) && Alongside(r, x, k) && i < j < k
    requires r.steps[i] == CreateStep(t, n, v) && r.steps[j] == SwapStep(t)
    requires forall l :: i < l < j ==> r.steps[l] != SwapStep(t)
    ensures x.states[j + 1] == x.states[j] + [Slot(v, Some(t))]
  {
    PushingUntilSwap(r, i, j, t, n, v);
    assert MatchingStep(r.states[j], r.steps[j], x.states[j], x.steps[j]);
    assert SlotNext(x.states[j], x.steps[j], x.states[j + 1]);
  }

  // ----- the object itself -----

  class Queue<T> {
    var head: Node
    var tail: Node
    var next: map<Node, Option<Node>>
    var value: map<Node, Option<T>>
    var pushers: map<Tid, PushPc>
    var popper: PopPc<T>
    ghost var order: seq<Node>
    ghost var pushed: seq<T>
    ghost var popped: seq<T>

    ghost function View(): State<T>
      reads this
    {
      State(head, tail, next, value, pushers, popper, order, pushed, popped)
    }

    ghost predicate Valid()
      reads this
    {
      Inv(View())
    }

    constructor (stub: Node)
      ensures View() == Init(stub) && Valid()
    {
      head, tail := stub, stub;
      next, value := map[stub := None], map[stub := None];
      pushers, popper := map[], Rest(Empty);
      order, pushed, popped := [stub], [], [];
      new;
      InitInv<T>(stub);
    }

    /** `Node::new(Some(x))`, at an address not in use. */
    method CreateNode(t: Tid, n: Node, x: T)
      requires Valid() && t !in pushers && n !in value
      modifies this
      ensures View() == DoCreate(old(View()), t, n, x) && Valid()
    {
      KeepsCreate(View(), t, n, x);
      next, value := next[n := None], value[n := Some(x)];
      pushers := pushers[t := Created(n)];
    }

    /** `head.swap(n)`. */
    method SwapHead(t: Tid)
      requires Valid() && t in pushers && pushers[t].Created?
      modifies this
      ensures Enabled(old(View()), SwapStep(t))
      ensures View() == DoSwap(old(View()), t) && Valid()
    {
      assert PusherOk(View(), t);
      KeepsSwap(View(), t);
      var n := pushers[t].node;
      pushers := pushers[t := Swapped(n, head)];
      head := n;
      order, pushed := order + [n], pushed + [value[n].value];
    }

    /** `(*prev).next.store(n)`. */
    method LinkPrev(t: Tid)
      requires Valid() && t in pushers && pushers[t].Swapped?
      modifies this
      ensures View() == DoLink(old(View()), t) && Valid()
    {
      KeepsLink(View(), t);
      next := next[pushers[t].prev := Some(pushers[t].node)];
      pushers := pushers - {t};
    }

    /** `pop` up to the branch on the next pointer; with a next node the value is taken, and
        the old tail node freed. */
    method PopNext()
      requires Valid() && popper.Rest?
      modifies this
      ensures Enabled(old(View()), PopNextStep)
      ensures View() == DoPopNext(old(View())) && Valid()
    {
      PopNeverPanics(View());
      KeepsPopNext(View());
      var nxt := if tail in next then next[tail] else None;
      if nxt.Some? {
        assert value[tail].None? && value[nxt.value].Some?;
        var x := value[nxt.value].value;
        value := value[nxt.value := None] - {tail};
        next := next - {tail};
        tail := nxt.value;
        popper := Rest(Data(x));
        order, popped := order[1..], popped + [x];
      } else {
        popper := LookAtHead;
      }
    }

    /** The rest of `pop`: the head tells an empty queue from one with a link due. */
    method PopHead()
      requires Valid() && popper.LookAtHead?
      modifies this
      ensures View() == DoPopHead(old(View())) && Valid()
    {
      KeepsPopHead(View());
      popper := Rest(if head == tail then Empty else Inconsistent);
    }

    /** `Queue::drop` with no `push` in progress: every node of the chain is freed, once each,
        and with it every value left is dropped, oldest first. */
    method DropAll() returns (dropped: seq<T>, freed: seq<Node>)
      requires Valid() && pushers == map[] && popper.Rest?
      ensures dropped == Fifo(View())
      ensures freed == order && NoDuplicates(freed)
    {
      dropped, freed := [], [];
      assert order[0..] == order;
      var cur: Option<Node> := Some(tail);
      ghost var i := 0;
      while cur.Some?
        invariant 0 <= i <= |order|
        invariant cur == if i < |order| then Some(order[i]) else None
        invariant dropped + Values(value, order[i..]) == Values(value, order) && freed == order[..i]
        decreases |order| - i
      {
        var n := cur.value;
        assert order[i..][0] == n && order[i..][1..] == order[i + 1..];
        if value[n].Some? {
          dropped := dropped + [value[n].value];
        }
        assert i < |order| - 1 ==> NextOf(View(), order[i]) == Some(order[i + 1]);
        cur := if n in next then next[n] else None;
        freed := freed + [n];
        i := i + 1;
      }
      assert order[|order|..] == [] && Values(value, []) == [] && order[..|order|] == order;
      assert value[order[0]].None? && Values(value, order) == Values(value, order[1..]);
    }
  }
}
