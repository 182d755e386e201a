/** The doubly linked list of all tasks of a `FuturesUnordered`: `link`, `unlink`, `len` and
    the iterators of futures-util/src/stream/futures_unordered/{mod,iter}.rs.

    `link` takes `&self`, so any number of threads may be inside it, together with readers;
    its atomic swap and its stores are separate steps.  `unlink` and the owning iterator
    need exclusive access and are enabled only when nobody else is inside. */
module TaskLists {
  import opened Runs
  import opened Chains

  /** `next_all`: the reserved pending value, or a real (possibly null) pointer. */
  datatype NextPtr = PendingNext | NextIs(next: Option<Node>)

  /** The three list fields of a task: `next_all`, `prev_all`, `len_all`. */
  datatype Links = Links(nextAll: NextPtr, prevAll: Option<Node>, lenAll: nat)

  type Heap = map<Node, Links>

  const DETACHED := Links(PendingNext, None, 0)

  /** A thread inside `link`.  `idx` is the position of its node, counted from the oldest;
      it does not change while other threads link. */
  datatype LinkPc =
    | Swapped(idx: nat, node: Node, oldHead: Option<Node>)   // head_all points to the node
    | Sized(idx: nat, node: Node, oldHead: Option<Node>)     // its len_all is written
    | Stored(idx: nat, node: Node, oldHead: Option<Node>)    // its next_all is written; the old head's prev_all is due

  /** A reader: inside `len` after loading the head, or an iterator between two calls of `next`. */
  datatype ReadPc =
    | Loaded(task: Node, idx: nat)
    | Iterating(at: Option<Node>, len: nat)

  datatype State = State(
    head: Option<Node>,
    h: Heap,
    linkers: map<Tid, LinkPc>,
    readers: map<Tid, ReadPc>,
    consumed: bool,            // `into_iter` has taken the set
    q: seq<Node>,              // the list, oldest task first; head_all is the last one
    exact: nat)                // from this position on, len_all is the exact length

  const Init := State(None, map[], map[], map[], false, [], 0)

  predicate Exclusive(s: State) { s.linkers == map[] && s.readers == map[] }

  /** A task outside the list, as `link` expects it. */
  predicate Detached(h: Heap, n: Node) {
    n in h && h[n].nextAll == PendingNext && h[n].prevAll == None
  }

  // ----- steps -----

  function DoNewTask(s: State, n: Node): State { s.(h := s.h[n := DETACHED]) }

  function DoSwapHead(s: State, t: Tid, n: Node): State {
    s.(head := Some(n), linkers := s.linkers[t := Swapped(|s.q|, n, s.head)], q := s.q + [n])
  }

  /** The task's `next_all` is written, so `spin_next_all` ends and `len_all` may be read. */
  predicate Settled(h: Heap, o: Option<Node>) {
    o.Some? ==> o.value in h && h[o.value].nextAll.NextIs?
  }

  function NewLen(h: Heap, o: Option<Node>): nat
    requires Settled(h, o)
  {
    if o.None? then 1 else h[o.value].lenAll + 1
  }

  function SetLen(h: Heap, o: Option<Node>, len: nat): Heap {
    if o.Some? && o.value in h then h[o.value := h[o.value].(lenAll := len)] else h
  }

  function SetNext(h: Heap, o: Option<Node>, p: NextPtr): Heap {
    if o.Some? && o.value in h then h[o.value := h[o.value].(nextAll := p)] else h
  }

  function SetPrev(h: Heap, o: Option<Node>, p: Option<Node>): Heap {
    if o.Some? && o.value in h then h[o.value := h[o.value].(prevAll := p)] else h
  }

  function DoWriteLen(s: State, t: Tid): State
    requires t in s.linkers && s.linkers[t].Swapped? && Settled(s.h, s.linkers[t].oldHead)
  {
    var Swapped(idx, n, oldHead) := s.linkers[t];
    s.(h := SetLen(s.h, Some(n), NewLen(s.h, oldHead)), linkers := s.linkers[t := Sized(idx, n, oldHead)])
  }

  function DoStoreNext(s: State, t: Tid): State
    requires t in s.linkers && s.linkers[t].Sized?
  {
    var Sized(idx, n, oldHead) := s.linkers[t];
    s.(h := SetNext(s.h, Some(n), NextIs(oldHead)),
    linkers := if oldHead.None? then s.linkers - {t} else s.linkers[t := Stored(idx, n, oldHead)])
  }

  function DoStorePrev(s: State, t: Tid): State
    requires t in s.linkers && s.linkers[t].Stored?
  {
    s.(h := SetPrev(s.h, s.linkers[t].oldHead, Some(s.linkers[t].node)), linkers := s.linkers - {t})
  }

  function DoLoadHead(s: State, t: Tid): State {
    if s.head.None? then s.(readers := s.readers[t := Iterating(None, 0)])
    else s.(readers := s.readers[t := Loaded(s.head.value, if s.q == [] then 0 else |s.q| - 1)])
  }

  function DoReadLen(s: State, t: Tid): State
    requires t in s.readers && s.readers[t].Loaded? && Settled(s.h, Some(s.readers[t].task))
  {
    var n := s.readers[t].task;
    s.(readers := s.readers[t := Iterating(Some(n), s.h[n].lenAll)])
  }

  /** One `next` of a shared iterator; `len -= 1` must not underflow. */
  function DoIterNext(s: State, t: Tid): State
    requires t in s.readers && s.readers[t].Iterating? && s.readers[t].at.Some?
    requires Settled(s.h, s.readers[t].at) && s.readers[t].len >= 1
  {
    var r := s.readers[t];
    s.(readers := s.readers[t := Iterating(s.h[r.at.value].nextAll.next, r.len - 1)])
  }

  function DoEndRead(s: State, t: Tid): State { s.(readers := s.readers - {t}) }

  function Without(q: seq<Node>, i: nat): seq<Node>
    requires i < |q|
  {
    q[..i] + q[i + 1..]
  }

  predicate CanUnlink(s: State, i: nat) {
    && Exclusive(s) && i < |s.q| && s.head.Some? && s.head.value in s.h && s.h[s.head.value].lenAll >= 1
    && s.q[i] in s.h && s.h[s.q[i]].nextAll.NextIs?
  }

  /** `head_all` after `unlink(n)`. */
  function UnlinkHead(h: Heap, head: Option<Node>, n: Node): Option<Node>
    requires n in h && h[n].nextAll.NextIs?
  {
    if h[n].prevAll.Some? then head else h[n].nextAll.next
  }

  /** `unlink(n)`, pointer write by pointer write. */
  function UnlinkHeap(h: Heap, head: Option<Node>, n: Node): Heap
    requires n in h && h[n].nextAll.NextIs?
    requires head.Some? && head.value in h && h[head.value].lenAll >= 1
  {
    var newLen := h[head.value].lenAll - 1;
    var next, prev := h[n].nextAll.next, h[n].prevAll;
    var h1 := h[n := h[n].(nextAll := PendingNext, prevAll := None)];
    var h2 := SetPrev(h1, next, prev);
    var h3 := SetNext(h2, prev, NextIs(next));
    SetLen(h3, UnlinkHead(h, head, n), newLen)
  }

  function DoUnlink(s: State, i: nat): State
    requires CanUnlink(s, i)
  {
    s.(head := UnlinkHead(s.h, s.head, s.q[i]), h := UnlinkHeap(s.h, s.head, s.q[i]), q := Without(s.q, i),
    exact := if s.consumed || |s.q| <= 1 then |s.q| - 1 else |s.q| - 2)
  }

  function DoIntoIter(s: State): State { s.(consumed := true) }

  /** `IntoIter::next` pops the head and leaves the `len_all` of the next one as it is. */
  function DoPopHead(s: State): State
    requires s.q != [] && s.head.Some? && s.head.value in s.h && s.h[s.head.value].nextAll.NextIs?
  {
    var n := s.head.value;
    var nxt := s.h[n].nextAll.next;
    var h1 := SetPrev(s.h, nxt, None);
    s.(head := nxt, h := h1[n := s.h[n].(nextAll := PendingNext, prevAll := None)],
    q := s.q[..|s.q| - 1], exact := |s.q| - 1)
  }

  datatype Step =
    | NewTaskStep(n: Node) | SwapHeadStep(t: Tid, n: Node) | WriteLenStep(t: Tid)
    | StoreNextStep(t: Tid) | StorePrevStep(t: Tid)
    | LoadHeadStep(t: Tid) | ReadLenStep(t: Tid) | IterNextStep(t: Tid) | EndReadStep(t: Tid)
    | UnlinkStep(i: nat) | IntoIterStep | PopHeadStep

  predicate Enabled(s: State, e: Step) {
    match e
    case NewTaskStep(n) => n !in s.h
    case SwapHeadStep(t, n) => t !in s.linkers && !s.consumed && n !in s.q && Detached(s.h, n)
    case WriteLenStep(t) => t in s.linkers && s.linkers[t].Swapped? && Settled(s.h, s.linkers[t].oldHead)
    case StoreNextStep(t) => t in s.linkers && s.linkers[t].Sized?
    case StorePrevStep(t) => t in s.linkers && s.linkers[t].Stored?
    case LoadHeadStep(t) => t !in s.readers && !s.consumed
    case ReadLenStep(t) => t in s.readers && s.readers[t].Loaded? && Settled(s.h, Some(s.readers[t].task))
    case IterNextStep(t) =>
      && t in s.readers && s.readers[t].Iterating? && s.readers[t].at.Some?
      && Settled(s.h, s.readers[t].at) && s.readers[t].len >= 1
    case EndReadStep(t) => t in s.readers
    case UnlinkStep(i) => CanUnlink(s, i)
    case IntoIterStep => Exclusive(s) && !s.consumed
    case PopHeadStep =>
      && s.consumed && s.q != [] && s.head.Some? && s.head.value in s.h && s.h[s.head.value].nextAll.NextIs?
  }

  function Apply(s: State, e: Step): State
    requires Enabled(s, e)
  {
    match e
    case NewTaskStep(n) => DoNewTask(s, n)
    case SwapHeadStep(t, n) => DoSwapHead(s, t, n)
    case WriteLenStep(t) => DoWriteLen(s, t)
    case StoreNextStep(t) => DoStoreNext(s, t)
    case StorePrevStep(t) => DoStorePrev(s, t)
    case LoadHeadStep(t) => DoLoadHead(s, t)
    case ReadLenStep(t) => DoReadLen(s, t)
    case IterNextStep(t) => DoIterNext(s, t)
    case EndReadStep(t) => DoEndRead(s, t)
    case UnlinkStep(i) => DoUnlink(s, i)
    case IntoIterStep => DoIntoIter(s)
    case PopHeadStep => DoPopHead(s)
  }

  ghost predicate IsInit(s: State) { s == Init }

  ghost predicate Next(s: State, e: Step, s': State) {
    Enabled(s, e) && s' == Apply(s, e)
  }

  // ----- the invariant -----

  /** The task below position i, null at the bottom. */
  function Below(q: seq<Node>, i: nat): Option<Node>
    requires i < |q|
  {
    if i == 0 then None else Some(q[i - 1])
  }

  /** The task above position i, null at the top. */
  function Above(q: seq<Node>, i: nat): Option<Node>
    requires i < |q|
  {
    if i == |q| - 1 then None else Some(q[i + 1])
  }

  function Top(q: seq<Node>): Option<Node> {
    if q == [] then None else Some(q[|q| - 1])
  }

  /** The thread that links position i has not written its next_all yet. */
  ghost predicate NextDue(linkers: map<Tid, LinkPc>, i: int) {
    exists t :: t in linkers && linkers[t].idx == i && !linkers[t].Stored?
  }

  /** The thread that links position i is still inside `link`. */
  ghost predicate Linking(linkers: map<Tid, LinkPc>, i: int) {
    exists t :: t in linkers && linkers[t].idx == i
  }

  ghost predicate NodeOk(h: Heap, linkers: map<Tid, LinkPc>, q: seq<Node>, exact: nat, i: nat)
    requires i < |q|
  {
    var n := q[i];
    && n in h
    && (h[n].nextAll == NextIs(Below(q, i)) || (h[n].nextAll == PendingNext && NextDue(linkers, i)))
    && (h[n].prevAll == Above(q, i) || (h[n].prevAll == None && Linking(linkers, i + 1)))
    && (h[n].nextAll.NextIs? ==> h[n].lenAll >= i + 1 && (i >= exact ==> h[n].lenAll == i + 1))
  }

  ghost predicate Nodes(h: Heap, linkers: map<Tid, LinkPc>, q: seq<Node>, exact: nat) {
    forall i :: 0 <= i < |q| ==> NodeOk(h, linkers, q, exact, i)
  }

  ghost predicate LinkerOk(h: Heap, q: seq<Node>, exact: nat, p: LinkPc) {
    && p.idx < |q| && q[p.idx] == p.node && p.oldHead == Below(q, p.idx)
    && exact <= p.idx && (p.idx > 0 ==> exact < p.idx)
    && p.node in h
    && (p.Stored? <==> h[p.node].nextAll.NextIs?)
    && (p.Sized? ==> h[p.node].lenAll == p.idx + 1)
    && (p.Stored? ==> p.oldHead.Some?)
  }

  ghost predicate Linkers(h: Heap, linkers: map<Tid, LinkPc>, q: seq<Node>, exact: nat) {
    && (forall t :: t in linkers ==> LinkerOk(h, q, exact, linkers[t]))
    && (forall t, u :: t in linkers && u in linkers && linkers[t].idx == linkers[u].idx ==> t == u)
  }

  ghost predicate ReaderOk(q: seq<Node>, exact: nat, r: ReadPc) {
    match r
    case Loaded(n, i) => i < |q| && q[i] == n && exact <= i
    case Iterating(o, len) => len <= |q| && o == if len == 0 then None else Some(q[len - 1])
  }

  ghost predicate Readers(readers: map<Tid, ReadPc>, q: seq<Node>, exact: nat) {
    forall t :: t in readers ==> ReaderOk(q, exact, readers[t])
  }

  ghost predicate Outside(h: Heap, q: seq<Node>) {
    forall n :: n in h && n !in q ==> Detached(h, n)
  }

  predicate Apart(q: seq<Node>, i: int, j: int) {
    0 <= i < |q| && 0 <= j < |q| && i != j ==> q[i] != q[j]
  }

  ghost predicate Distinct(q: seq<Node>) {
    forall i, j :: Apart(q, i, j)
  }

  ghost predicate Inv(s: State) {
    && Distinct(s.q)
    && s.head == Top(s.q)
    && Nodes(s.h, s.linkers, s.q, s.exact)
    && Linkers(s.h, s.linkers, s.q, s.exact)
    && Readers(s.readers, s.q, s.exact)
    && Outside(s.h, s.q)
    && (s.consumed ==> Exclusive(s))
    && (!s.consumed ==> s.exact < |s.q| || (s.q == [] && s.exact == 0))
  }

  lemma KeepsNewTask(s: State, n: Node)
    requires Inv(s) && n !in s.h
    ensures Inv(DoNewTask(s, n))
  {
    var s' := DoNewTask(s, n);
    forall i | 0 <= i < |s.q| ensures NodeOk(s'.h, s.linkers, s.q, s.exact, i) {
      assert NodeOk(s.h, s.linkers, s.q, s.exact, i);
    }
    forall t | t in s.linkers ensures LinkerOk(s'.h, s.q, s.exact, s.linkers[t]) {
      assert LinkerOk(s.h, s.q, s.exact, s.linkers[t]);
    }
  }

  lemma KeepsSwapHead(s: State, t: Tid, n: Node)
    requires Inv(s) && Enabled(s, SwapHeadStep(t, n))
    ensures Inv(DoSwapHead(s, t, n))
  {
    var s' := DoSwapHead(s, t, n);
    var last := |s.q|;
    forall i, j ensures Apart(s'.q, i, j) { assert Apart(s.q, i, j); }
    assert t in s'.linkers && s'.linkers[t].idx == last;
    assert forall u :: u in s.linkers ==> u in s'.linkers && s'.linkers[u] == s.linkers[u];
    forall i | 0 <= i < |s'.q| ensures NodeOk(s'.h, s'.linkers, s'.q, s'.exact, i) {
      if i < last {
        assert NodeOk(s.h, s.linkers, s.q, s.exact, i);
        assert NextDue(s.linkers, i) ==> NextDue(s'.linkers, i);
        assert Linking(s.linkers, i + 1) ==> Linking(s'.linkers, i + 1);
      }
    }
    forall u | u in s'.linkers ensures LinkerOk(s'.h, s'.q, s'.exact, s'.linkers[u]) {
      if u != t { assert LinkerOk(s.h, s.q, s.exact, s.linkers[u]); }
    }
    forall u | u in s'.readers ensures ReaderOk(s'.q, s'.exact, s'.readers[u]) {
      assert ReaderOk(s.q, s.exact, s.readers[u]);
    }
  }

  /** A linker that goes on leaves what is due from the others due. */
  lemma DuesFrame(linkers: map<Tid, LinkPc>, linkers': map<Tid, LinkPc>, t: Tid)
    requires t in linkers
    requires forall u :: u in linkers && u != t ==> u in linkers' && linkers'[u] == linkers[u]
    ensures forall i :: i != linkers[t].idx && NextDue(linkers, i) ==> NextDue(linkers', i)
    ensures forall i :: i != linkers[t].idx && Linking(linkers, i) ==> Linking(linkers', i)
    ensures t in linkers' && linkers'[t].idx == linkers[t].idx ==> forall i :: Linking(linkers, i) ==> Linking(linkers', i)
  {
    forall i | NextDue(linkers, i) && i != linkers[t].idx ensures NextDue(linkers', i) {
      var u :| u in linkers && linkers[u].idx == i && !linkers[u].Stored?;
      assert u in linkers' && linkers'[u].idx == i;
    }
    forall i | Linking(linkers, i) && (i != linkers[t].idx || (t in linkers' && linkers'[t].idx == i)) ensures Linking(linkers', i) {
      var u :| u in linkers && linkers[u].idx == i;
      assert u in linkers' && linkers'[u].idx == i;
    }
  }

  lemma LinkersFrame(s: State, s': State, t: Tid, m: Node)
    requires Inv(s) && t in s.linkers && s'.q == s.q && s'.exact == s.exact
    requires forall u :: u in s'.linkers && u != t ==> u in s.linkers && s'.linkers[u] == s.linkers[u]
    requires forall n :: n in s.h ==> n in s'.h && (n != m ==> s'.h[n] == s.h[n])
    requires m == s.linkers[t].node || (m in s.h && s'.h[m] == s.h[m].(prevAll := s'.h[m].prevAll))
    requires t in s'.linkers ==> s'.linkers[t].idx == s.linkers[t].idx && LinkerOk(s'.h, s.q, s.exact, s'.linkers[t])
    ensures Linkers(s'.h, s'.linkers, s'.q, s'.exact)
  {
    forall u | u in s'.linkers ensures LinkerOk(s'.h, s'.q, s'.exact, s'.linkers[u]) {
      if u != t {
        assert LinkerOk(s.h, s.q, s.exact, s.linkers[u]) && LinkerOk(s.h, s.q, s.exact, s.linkers[t]);
        assert Apart(s.q, s.linkers[u].idx, s.linkers[t].idx);
      }
    }
  }

  lemma OutsideFrame(h: Heap, h': Heap, q: seq<Node>, m: Node)
    requires Outside(h, q) && m in q && h'.Keys == h.Keys
    requires forall n :: n in h && n != m ==> h'[n] == h[n]
    ensures Outside(h', q)
  {
  }

  lemma WriteLenNode(s: State, t: Tid, i: nat)
    requires Inv(s) && Enabled(s, WriteLenStep(t)) && i < |s.q|
    ensures NodeOk(DoWriteLen(s, t).h, DoWriteLen(s, t).linkers, s.q, s.exact, i)
  {
    var p := s.linkers[t];
    var linkers' := DoWriteLen(s, t).linkers;
    assert LinkerOk(s.h, s.q, s.exact, p);
    assert NodeOk(s.h, s.linkers, s.q, s.exact, i);
    DuesFrame(s.linkers, linkers', t);
    assert NextDue(linkers', p.idx) by { assert t in linkers' && linkers'[t].idx == p.idx; }
    assert Apart(s.q, i, p.idx);
  }

  lemma KeepsWriteLen(s: State, t: Tid)
    requires Inv(s) && Enabled(s, WriteLenStep(t))
    ensures Inv(DoWriteLen(s, t))
  {
    var s' := DoWriteLen(s, t);
    var p := s.linkers[t];
    assert LinkerOk(s.h, s.q, s.exact, p);
    if p.idx > 0 { assert NodeOk(s.h, s.linkers, s.q, s.exact, p.idx - 1); }
    forall i | 0 <= i < |s.q| ensures NodeOk(s'.h, s'.linkers, s.q, s.exact, i) { WriteLenNode(s, t, i); }
    LinkersFrame(s, s', t, p.node);
    OutsideFrame(s.h, s'.h, s.q, p.node);
  }

  lemma StoreNextNode(s: State, t: Tid, i: nat)
    requires Inv(s) && Enabled(s, StoreNextStep(t)) && i < |s.q|
    ensures NodeOk(DoStoreNext(s, t).h, DoStoreNext(s, t).linkers, s.q, s.exact, i)
  {
    var p := s.linkers[t];
    var linkers' := DoStoreNext(s, t).linkers;
    assert LinkerOk(s.h, s.q, s.exact, p);
    assert NodeOk(s.h, s.linkers, s.q, s.exact, i);
    DuesFrame(s.linkers, linkers', t);
    assert Apart(s.q, i, p.idx);
    if i + 1 == p.idx { assert t in linkers' && linkers'[t].idx == p.idx; }
  }

  lemma KeepsStoreNext(s: State, t: Tid)
    requires Inv(s) && Enabled(s, StoreNextStep(t))
    ensures Inv(DoStoreNext(s, t))
  {
    var s' := DoStoreNext(s, t);
    var p := s.linkers[t];
    assert LinkerOk(s.h, s.q, s.exact, p);
    forall i | 0 <= i < |s.q| ensures NodeOk(s'.h, s'.linkers, s.q, s.exact, i) { StoreNextNode(s, t, i); }
    LinkersFrame(s, s', t, p.node);
    OutsideFrame(s.h, s'.h, s.q, p.node);
  }

  lemma StorePrevNode(s: State, t: Tid, i: nat)
    requires Distinct(s.q) && Nodes(s.h, s.linkers, s.q, s.exact) && Linkers(s.h, s.linkers, s.q, s.exact)
    requires Enabled(s, StorePrevStep(t)) && i < |s.q|
    ensures NodeOk(DoStorePrev(s, t).h, DoStorePrev(s, t).linkers, s.q, s.exact, i)
  {
    var p := s.linkers[t];
    assert LinkerOk(s.h, s.q, s.exact, p);
    assert NodeOk(s.h, s.linkers, s.q, s.exact, p.idx - 1);
    assert NodeOk(s.h, s.linkers, s.q, s.exact, i);
    DuesFrame(s.linkers, s.linkers - {t}, t);
    assert Apart(s.q, i, p.idx - 1);
  }

  lemma KeepsStorePrev(s: State, t: Tid)
    requires Inv(s) && Enabled(s, StorePrevStep(t))
    ensures Inv(DoStorePrev(s, t))
  {
    var s' := DoStorePrev(s, t);
    var p := s.linkers[t];
    assert LinkerOk(s.h, s.q, s.exact, p);
    assert NodeOk(s.h, s.linkers, s.q, s.exact, p.idx - 1);
    forall i | 0 <= i < |s.q| ensures NodeOk(s'.h, s'.linkers, s.q, s.exact, i) { StorePrevNode(s, t, i); }
    LinkersFrame(s, s', t, p.oldHead.value);
    OutsideFrame(s.h, s'.h, s.q, p.oldHead.value);
  }

  lemma ReaderMoves(s: State, e: Step)
    requires Inv(s) && Enabled(s, e)
    requires e.LoadHeadStep? || e.ReadLenStep? || e.IterNextStep?
    ensures ReaderOk(s.q, s.exact, Apply(s, e).readers[e.t])
  {
    if e.IterNextStep? {
      assert ReaderOk(s.q, s.exact, s.readers[e.t]);
      assert NodeOk(s.h, s.linkers, s.q, s.exact, s.readers[e.t].len - 1);
    } else if e.ReadLenStep? {
      assert ReaderOk(s.q, s.exact, s.readers[e.t]);
      assert NodeOk(s.h, s.linkers, s.q, s.exact, s.readers[e.t].idx);
    }
  }

  lemma KeepsReads(s: State, e: Step)
    requires Inv(s) && Enabled(s, e)
    requires e.LoadHeadStep? || e.ReadLenStep? || e.IterNextStep? || e.EndReadStep?
    ensures Inv(Apply(s, e))
  {
    var s' := Apply(s, e);
    if !e.EndReadStep? { ReaderMoves(s, e); }
    forall u | u in s'.readers ensures ReaderOk(s'.q, s'.exact, s'.readers[u]) {
      if u in s.readers { assert ReaderOk(s.q, s.exact, s.readers[u]); }
    }
  }

  /** With exclusive access every pointer is in place. */
  ghost predicate QuietNode(h: Heap, q: seq<Node>, exact: nat, i: nat)
    requires i < |q|
  {
    var n := q[i];
    && n in h && h[n].nextAll == NextIs(Below(q, i)) && h[n].prevAll == Above(q, i)
    && h[n].lenAll >= i + 1 && (i >= exact ==> h[n].lenAll == i + 1)
  }

  lemma Quiet(s: State, i: nat)
    requires Inv(s) && s.linkers == map[] && i < |s.q|
    ensures QuietNode(s.h, s.q, s.exact, i)
  {
    assert NodeOk(s.h, s.linkers, s.q, s.exact, i);
  }

  lemma WithoutMember(q: seq<Node>, i: nat, m: Node)
    requires i < |q| && Distinct(q)
    ensures m in Without(q, i) <==> m in q && m != q[i]
  {
    var r := Without(q, i);
    if m in r {
      var j :| 0 <= j < |r| && r[j] == m;
      assert Apart(q, if j < i then j else j + 1, i);
    }
    if m in q && m != q[i] {
      var j :| 0 <= j < |q| && q[j] == m;
      assert r[if j < i then j else j - 1] == m;
    }
  }

  /** The fields of another task after `unlink(n)`. */
  lemma UnlinkEffect(h: Heap, head: Option<Node>, n: Node, m: Node)
    requires n in h && h[n].nextAll.NextIs? && head.Some? && head.value in h && h[head.value].lenAll >= 1
    requires m in h && m != n
    ensures var h' := UnlinkHeap(h, head, n);
            && m in h'
            && h'[m].nextAll == (if h[n].prevAll == Some(m) then h[n].nextAll else h[m].nextAll)
            && h'[m].prevAll == (if h[n].nextAll.next == Some(m) then h[n].prevAll else h[m].prevAll)
            && h'[m].lenAll == if UnlinkHead(h, head, n) == Some(m) then h[head.value].lenAll - 1 else h[m].lenAll
  {
  }

  /** The pointers of the task at position k after the one at position i was unlinked. */
  lemma UnlinkFields(s: State, i: nat, k: nat)
    requires Inv(s) && CanUnlink(s, i) && k < |s.q| && k != i
    ensures var m, h := s.q[k], DoUnlink(s, i).h;
            && m in h
            && h[m].nextAll == NextIs(if k == i + 1 then Below(s.q, i) else Below(s.q, k))
            && h[m].prevAll == (if k + 1 == i then Above(s.q, i) else Above(s.q, k))
            && h[m].lenAll == if DoUnlink(s, i).head == Some(m) then s.h[s.head.value].lenAll - 1 else s.h[m].lenAll
  {
    Quiet(s, i);
    Quiet(s, k);
    assert Apart(s.q, k, i) && Apart(s.q, k, i - 1) && Apart(s.q, k, i + 1);
    UnlinkEffect(s.h, s.head, s.q[i], s.q[k]);
  }

  lemma UnlinkTop(s: State, i: nat)
    requires Inv(s) && CanUnlink(s, i)
    ensures DoUnlink(s, i).head == Top(Without(s.q, i))
  {
    Quiet(s, i);
  }

  lemma UnlinkNode(s: State, i: nat, j: nat)
    requires Inv(s) && CanUnlink(s, i) && j < |s.q| - 1
    ensures QuietNode(DoUnlink(s, i).h, Without(s.q, i), DoUnlink(s, i).exact, j)
  {
    var k := if j < i then j else j + 1;
    UnlinkFields(s, i, k);
    UnlinkTop(s, i);
    Quiet(s, k);
    Quiet(s, |s.q| - 1);
    WithoutDistinct(s.q, i);
  }

  lemma WithoutDistinct(q: seq<Node>, i: nat)
    requires i < |q| && Distinct(q)
    ensures Distinct(Without(q, i))
  {
    var r := Without(q, i);
    forall j, k ensures Apart(r, j, k) {
      assert Apart(q, if j < i then j else j + 1, if k < i then k else k + 1);
    }
  }

  lemma UnlinkOutside(s: State, i: nat)
    requires Inv(s) && CanUnlink(s, i)
    ensures Outside(DoUnlink(s, i).h, Without(s.q, i))
    ensures Detached(DoUnlink(s, i).h, s.q[i]) && s.q[i] !in Without(s.q, i)
  {
    var h, n := DoUnlink(s, i).h, s.q[i];
    Quiet(s, i);
    UnlinkTop(s, i);
    forall m ensures m in Without(s.q, i) <==> m in s.q && m != n { WithoutMember(s.q, i, m); }
    assert Apart(s.q, i - 1, i) && Apart(s.q, i + 1, i) && Apart(s.q, i, |s.q| - 1);
    assert h[n].nextAll == PendingNext && h[n].prevAll == None;
  }

  lemma KeepsUnlink(s: State, i: nat)
    requires Inv(s) && CanUnlink(s, i)
    ensures Inv(DoUnlink(s, i))
    ensures Detached(DoUnlink(s, i).h, s.q[i]) && s.q[i] !in DoUnlink(s, i).q
  {
    var s' := DoUnlink(s, i);
    forall j | 0 <= j < |s'.q| ensures NodeOk(s'.h, s'.linkers, s'.q, s'.exact, j) { UnlinkNode(s, i, j); }
    UnlinkOutside(s, i);
    UnlinkTop(s, i);
    WithoutDistinct(s.q, i);
  }

  lemma PopNode(s: State, j: nat)
    requires Inv(s) && Enabled(s, PopHeadStep) && j < |s.q| - 1
    ensures QuietNode(DoPopHead(s).h, s.q[..|s.q| - 1], |s.q| - 1, j)
  {
    var top := |s.q| - 1;
    Quiet(s, top);
    Quiet(s, top - 1);
    Quiet(s, j);
    assert Apart(s.q, j, top) && Apart(s.q, j, top - 1) && Apart(s.q, top - 1, top);
  }

  lemma PopShape(s: State)
    requires Inv(s) && Enabled(s, PopHeadStep)
    ensures Distinct(DoPopHead(s).q) && DoPopHead(s).head == Top(DoPopHead(s).q)
    ensures s.q == DoPopHead(s).q + [s.head.value] && s.head.value !in DoPopHead(s).q
  {
    var top, q' := |s.q| - 1, DoPopHead(s).q;
    Quiet(s, top);
    forall i, j ensures Apart(q', i, j) { assert Apart(s.q, i, j); }
    forall i | 0 <= i < top ensures s.q[i] != s.q[top] { assert Apart(s.q, i, top); }
  }

  lemma PopOutside(s: State)
    requires Inv(s) && Enabled(s, PopHeadStep)
    ensures Outside(DoPopHead(s).h, DoPopHead(s).q) && Detached(DoPopHead(s).h, s.head.value)
  {
    var top := |s.q| - 1;
    PopShape(s);
    Quiet(s, top);
    if top > 0 { assert s.q[top - 1] == DoPopHead(s).q[top - 1]; }
  }

  lemma KeepsPopHead(s: State)
    requires Inv(s) && Enabled(s, PopHeadStep)
    ensures Inv(DoPopHead(s))
    ensures Detached(DoPopHead(s).h, s.head.value) && s.head.value !in DoPopHead(s).q
  {
    var s' := DoPopHead(s);
    forall j | 0 <= j < |s'.q| ensures NodeOk(s'.h, s'.linkers, s'.q, s'.exact, j) { PopNode(s, j); }
    PopShape(s);
    PopOutside(s);
  }

  lemma KeepsInv(s: State, e: Step)
    requires Inv(s) && Enabled(s, e)
    ensures Inv(Apply(s, e))
  {
    match e
    case NewTaskStep(n) => KeepsNewTask(s, n);
    case SwapHeadStep(t, n) => KeepsSwapHead(s, t, n);
    case WriteLenStep(t) => KeepsWriteLen(s, t);
    case StoreNextStep(t) => KeepsStoreNext(s, t);
    case StorePrevStep(t) => KeepsStorePrev(s, t);
    case LoadHeadStep(_) => KeepsReads(s, e);
    case ReadLenStep(_) => KeepsReads(s, e);
    case IterNextStep(_) => KeepsReads(s, e);
    case EndReadStep(_) => KeepsReads(s, e);
    case UnlinkStep(i) => KeepsUnlink(s, i);
    case IntoIterStep =>
    case PopHeadStep => KeepsPopHead(s);
  }

  lemma InvInEveryState(r: Run<State, Step>, k: nat)
    requires IsRun(IsInit, Next, r) && k < |r.states|
    ensures Inv(r.states[k])
  {
    forall s, e, s' | Inv(s) && Next(s, e, s') ensures Inv(s') {
      KeepsInv(s, e);
    }
    Invariance(IsInit, Next, Inv, r, k);
  }

  // ----- what the list promises -----

  /** The tasks linked by the first k steps and neither unlinked nor popped, oldest first. */
  ghost function Replayed(steps: seq<Step>, k: nat): seq<Node>
    requires k <= |steps|
  {
    if k == 0 then []
    else
      var q := Replayed(steps, k - 1);
      match steps[k - 1]
      case SwapHeadStep(_, n) => q + [n]
      case UnlinkStep(i) => if i < |q| then Without(q, i) else q
      case PopHeadStep => if q == [] then q else q[..|q| - 1]
      case _ => q
  }

  lemma ListStep(s: State, e: Step, s': State)
    requires Next(s, e, s')
    ensures s'.q == match e
                    case SwapHeadStep(_, n) => s.q + [n]
                    case UnlinkStep(i) => Without(s.q, i)
                    case PopHeadStep => s.q[..|s.q| - 1]
                    case _ => s.q
  {
    match e
    case NewTaskStep(_) => case SwapHeadStep(_, _) => case WriteLenStep(_) => case StoreNextStep(_) => case StorePrevStep(_) =>
    case LoadHeadStep(_) => case ReadLenStep(_) => case IterNextStep(_) => case EndReadStep(_) => case UnlinkStep(_) =>
    case IntoIterStep => case PopHeadStep =>
  }

  /** The list holds the tasks its calls have linked and not taken out, in the order of the links. */
  lemma {:induction false} HoldsWhatWasLinked(r: Run<State, Step>, k: nat)
    requires IsRun(IsInit, Next, r) && k < |r.states|
    ensures r.states[k].q == Replayed(r.steps, k)
  {
    if k > 0 {
      HoldsWhatWasLinked(r, k - 1);
      ListStep(r.states[k - 1], r.steps[k - 1], r.states[k - 1 + 1]);
    }
  }

  /** Whenever nobody else is inside, the list is well formed in both directions from
      `head_all`, the head's `len_all` is its length, and no other `len_all` is below the
      length of the list from that task on. */
  lemma WellFormedWhenExclusive(r: Run<State, Step>, k: nat, i: nat)
    requires IsRun(IsInit, Next, r) && k < |r.states|
    requires r.states[k].linkers == map[] && i < |r.states[k].q|
    ensures var s := r.states[k];
            var n := s.q[i];
            && s.head == Some(s.q[|s.q| - 1])
            && n in s.h && s.h[n].nextAll == NextIs(Below(s.q, i)) && s.h[n].prevAll == Above(s.q, i)
            && s.h[n].lenAll >= i + 1
            && (!s.consumed && i == |s.q| - 1 ==> s.h[n].lenAll == |s.q|)
  {
    InvInEveryState(r, k);
    Quiet(r.states[k], i);
  }

  /** `len_all - 1` in `unlink` never underflows, so every linked task can be unlinked, also
      when an owning iterator was dropped half-way. */
  lemma UnlinkNeverUnderflows(s: State, i: nat)
    requires Inv(s) && Exclusive(s) && i < |s.q|
    ensures CanUnlink(s, i)
  {
    Quiet(s, i);
    Quiet(s, |s.q| - 1);
  }

  /** `unlink` removes exactly the given task, and leaves it as `link` expects a task. */
  lemma UnlinkRemovesOne(s: State, i: nat, m: Node)
    requires Inv(s) && CanUnlink(s, i)
    ensures m in DoUnlink(s, i).q <==> m in s.q && m != s.q[i]
    ensures |DoUnlink(s, i).q| == |s.q| - 1
    ensures Detached(DoUnlink(s, i).h, s.q[i])
  {
    WithoutMember(s.q, i, m);
    KeepsUnlink(s, i);
  }

  /** `len` loads the head: nothing is listed, or it has the task linked last and with it, from
      there on, the whole list. */
  lemma LoadsTop(s: State, t: Tid, s': State)
    requires Inv(s) && Next(s, LoadHeadStep(t), s')
    ensures t in s'.readers && s'.readers[t] == if s.q == [] then Iterating(None, 0) else Loaded(s.q[|s.q| - 1], |s.q| - 1)
  {
  }

  /** `len` under concurrent links returns the number of tasks that were in the list when it
      loaded the head. */
  lemma LenIsExact(s: State, t: Tid)
    requires Inv(s) && t in s.readers && s.readers[t].Loaded? && Settled(s.h, Some(s.readers[t].task))
    ensures DoReadLen(s, t).readers[t] == Iterating(Some(s.readers[t].task), s.readers[t].idx + 1)
    ensures s.readers[t].idx < |s.q| && s.q[s.readers[t].idx] == s.readers[t].task
  {
    assert ReaderOk(s.q, s.exact, s.readers[t]);
    assert NodeOk(s.h, s.linkers, s.q, s.exact, s.readers[t].idx);
  }

  predicate ReaderStep(e: Step, t: Tid) { (e.LoadHeadStep? || e.ReadLenStep? || e.IterNextStep? || e.EndReadStep?) && e.t == t }

  lemma ReaderStays(s: State, e: Step, s': State, t: Tid)
    requires Next(s, e, s') && !ReaderStep(e, t) && t in s.readers
    ensures t in s'.readers && s'.readers[t] == s.readers[t]
  {
    match e
    case NewTaskStep(_) => case SwapHeadStep(_, _) => case WriteLenStep(_) => case StoreNextStep(_) => case StorePrevStep(_) =>
    case LoadHeadStep(_) => case ReadLenStep(_) => case IterNextStep(_) => case EndReadStep(_) =>
    case UnlinkStep(_) => case IntoIterStep => case PopHeadStep =>
  }

  /** So over every run `len`, which loads the head in step i and reads its `len_all` in step j,
      is the number of tasks that were listed when it began. */
  lemma LenIsThatOfLoad(r: Run<State, Step>, i: nat, j: nat, t: Tid)
    requires IsRun(IsInit, Next, r) && i < j < |r.steps|
    requires r.steps[i] == LoadHeadStep(t) && r.steps[j] == ReadLenStep(t)
    requires forall k :: i < k < j ==> !ReaderStep(r.steps[k], t)
    ensures var q := r.states[i].q; q != [] && r.states[j + 1].readers[t] == Iterating(Some(q[|q| - 1]), |q|)
  {
    var q := r.states[i].q;
    InvInEveryState(r, i);
    InvInEveryState(r, j);
    assert Next(r.states[i], r.steps[i], r.states[i + 1]) && Next(r.states[j], r.steps[j], r.states[j + 1]);
    LoadsTop(r.states[i], t, r.states[i + 1]);
    var was := r.states[i + 1].readers[t];
    var keep := (s: State) => t in s.readers && s.readers[t] == was;
    forall k | i + 1 <= k < j && keep(r.states[k]) ensures keep(r.states[k + 1]) {
      assert Next(r.states[k], r.steps[k], r.states[k + 1]);
      ReaderStays(r.states[k], r.steps[k], r.states[k + 1], t);
    }
    Persistence(keep, r, i + 1, j);
    LenIsExact(r.states[j], t);
  }

  /** A shared iterator walks down the list it started on, one task at a time, while other
      threads link; its remaining length is exact, so `len -= 1` never underflows and it
      ends when the length is 0. */
  lemma IteratorWalksDown(s: State, t: Tid)
    requires Inv(s) && t in s.readers && s.readers[t].Iterating?
    ensures s.readers[t].at.None? <==> s.readers[t].len == 0
    ensures s.readers[t].at.Some? ==>
              && s.readers[t].len <= |s.q| && s.readers[t].at == Some(s.q[s.readers[t].len - 1])
              && (Settled(s.h, s.readers[t].at) ==>
                    DoIterNext(s, t).readers[t] ==
                    Iterating(if s.readers[t].len == 1 then None else Some(s.q[s.readers[t].len - 2]), s.readers[t].len - 1))
  {
    assert ReaderOk(s.q, s.exact, s.readers[t]);
    if s.readers[t].at.Some? { assert NodeOk(s.h, s.linkers, s.q, s.exact, s.readers[t].len - 1); }
  }

  /** The spinning in `link` and in the readers ends: of the threads inside `link`, the one
      whose node is lowest never waits for another. */
  lemma LowestLinkerGoesOn(s: State, t: Tid)
    requires Inv(s) && t in s.linkers
    ensures exists u :: u in s.linkers && s.linkers[u].idx <= s.linkers[t].idx && !(s.linkers[u].Swapped? && !Settled(s.h, s.linkers[u].oldHead))
    decreases s.linkers[t].idx
  {
    var p := s.linkers[t];
    assert LinkerOk(s.h, s.q, s.exact, p);
    if p.Swapped? && !Settled(s.h, p.oldHead) {
      assert NodeOk(s.h, s.linkers, s.q, s.exact, p.idx - 1);
      var u :| u in s.linkers && s.linkers[u].idx == p.idx - 1 && !s.linkers[u].Stored?;
      LowestLinkerGoesOn(s, u);
    }
  }

  /** `len` with exclusive access: the head's `len_all`. */
  function HeadLen(s: State): nat { if s.head.Some? && s.head.value in s.h then s.h[s.head.value].lenAll else 0 }

  lemma HeadLenIsExact(s: State)
    requires Inv(s) && Exclusive(s) && !s.consumed
    ensures HeadLen(s) == |s.q| && (s.head == None <==> s.q == [])
  {
    if s.q != [] { Quiet(s, |s.q| - 1); }
  }

  /** The owning iterator: its `len` starts as that of the set and goes down by one with every
      task handed out.  It is always the number of tasks left, and zero when there is none. */
  lemma {:induction false} IntoIterLenIsExact(r: Run<State, Step>, i: nat, j: nat)
    requires IsRun(IsInit, Next, r) && i < j < |r.states| && r.steps[i].IntoIterStep?
    requires forall k :: i < k < j ==> r.steps[k].PopHeadStep?
    ensures HeadLen(r.states[i]) - (j - i - 1) == |r.states[j].q|
    ensures HeadLen(r.states[i]) - (j - i - 1) == 0 <==> r.states[j].head == None
    decreases j
  {
    assert Next(r.states[j - 1], r.steps[j - 1], r.states[j - 1 + 1]);
    InvInEveryState(r, j);
    if j == i + 1 {
      InvInEveryState(r, i);
      HeadLenIsExact(r.states[i]);
    } else {
      IntoIterLenIsExact(r, i, j - 1);
    }
  }

  // ----- the object itself -----

  /** The list half of `FuturesUnordered`: `head_all` and the list fields of the tasks. */
  class TaskList {
    var headAll: Option<Node>
    var h: Heap
    var linkers: map<Tid, LinkPc>
    var readers: map<Tid, ReadPc>
    var consumed: bool
    var q: seq<Node>             // history: no step of the source reads it
    ghost var exact: nat

    ghost function View(): State
      reads this
    {
      State(headAll, h, linkers, readers, consumed, q, exact)
    }

    ghost predicate Valid()
      reads this
    {
      Inv(View())
    }

    constructor ()
      ensures View() == Init && Valid()
    {
      headAll, h, linkers, readers, consumed := None, map[], map[], map[], false;
      q, exact := [], 0;
    }

    method NewTask(n: Node)
      requires Valid() && n !in h
      modifies this
      ensures View() == DoNewTask(old(View()), n) && Valid()
    {
      KeepsNewTask(View(), n);
      h := h[n := DETACHED];
    }

    /** `head_all.swap(ptr)` of `link`. */
    method SwapHead(t: Tid, n: Node)
      requires Valid() && Enabled(View(), SwapHeadStep(t, n))
      modifies this
      ensures View() == DoSwapHead(old(View()), t, n) && Valid()
    {
      KeepsSwapHead(View(), t, n);
      linkers := linkers[t := Swapped(|q|, n, headAll)];
      headAll := Some(n);
      q := q + [n];
    }

    /** The end of the spin on the old head, and the store of `len_all`. */
    method WriteLen(t: Tid)
      requires Valid() && Enabled(View(), WriteLenStep(t))
      modifies this
      ensures View() == DoWriteLen(old(View()), t) && Valid()
    {
      KeepsWriteLen(View(), t);
      var Swapped(idx, n, next) := linkers[t];
      assert LinkerOk(h, q, exact, linkers[t]);
      var newLen := 1;
      if next.Some? {
        newLen := h[next.value].lenAll + 1;
      }
      h := h[n := h[n].(lenAll := newLen)];
      linkers := linkers[t := Sized(idx, n, next)];
    }

    /** `next_all.store(next)` of `link`. */
    method StoreNext(t: Tid)
      requires Valid() && Enabled(View(), StoreNextStep(t))
      modifies this
      ensures View() == DoStoreNext(old(View()), t) && Valid()
    {
      KeepsStoreNext(View(), t);
      var Sized(idx, n, next) := linkers[t];
      assert LinkerOk(h, q, exact, linkers[t]);
      h := h[n := h[n].(nextAll := NextIs(next))];
      if next.Some? {
        linkers := linkers[t := Stored(idx, n, next)];
      } else {
        linkers := linkers - {t};
      }
    }

    /** `*(*next).prev_all.get() = ptr` of `link`. */
    method StorePrev(t: Tid)
      requires Valid() && Enabled(View(), StorePrevStep(t))
      modifies this
      ensures View() == DoStorePrev(old(View()), t) && Valid()
    {
      KeepsStorePrev(View(), t);
      var Stored(idx, n, next) := linkers[t];
      assert LinkerOk(h, q, exact, linkers[t]);
      assert NodeOk(h, linkers, q, exact, idx - 1);
      h := h[next.value := h[next.value].(prevAll := Some(n))];
      linkers := linkers - {t};
    }

    /** `unlink(task)`, with exclusive access; `i` is the task's position. */
    method Unlink(n: Node, i: nat)
      requires Valid() && Exclusive(View()) && i < |q| && q[i] == n
      modifies this
      ensures CanUnlink(old(View()), i)
      ensures View() == DoUnlink(old(View()), i) && Valid()
    {
      UnlinkNeverUnderflows(View(), i);
      KeepsUnlink(View(), i);
      RewireAround(n);
      exact := if consumed || |q| <= 1 then |q| - 1 else |q| - 2;
      q := Without(q, i);
    }

    /** The pointer writes of `unlink`. */
    method RewireAround(n: Node)
      requires n in h && h[n].nextAll.NextIs? && headAll.Some? && headAll.value in h && h[headAll.value].lenAll >= 1
      modifies this`h, this`headAll
      ensures h == UnlinkHeap(old(h), old(headAll), n) && headAll == UnlinkHead(old(h), old(headAll), n)
    {
      var newLen := h[headAll.value].lenAll - 1;
      var next, prev := h[n].nextAll.next, h[n].prevAll;
      h := h[n := h[n].(nextAll := PendingNext, prevAll := None)];
      if next.Some? && next.value in h {
        h := h[next.value := h[next.value].(prevAll := prev)];
      }
      if prev.Some? {
        if prev.value in h {
          h := h[prev.value := h[prev.value].(nextAll := NextIs(next))];
        }
      } else {
        headAll := next;
      }
      if headAll.Some? && headAll.value in h {
        h := h[headAll.value := h[headAll.value].(lenAll := newLen)];
      }
    }

    /** The list half of `IntoIter::next`. */
    method PopHead() returns (n: Node)
      requires Valid() && Exclusive(View()) && consumed && q != []
      modifies this
      ensures Enabled(old(View()), PopHeadStep)
      ensures View() == DoPopHead(old(View())) && n == old(q)[|old(q)| - 1] && Valid()
    {
      Quiet(View(), |q| - 1);
      KeepsPopHead(View());
      n := headAll.value;
      var next := h[n].nextAll.next;
      headAll := next;
      var links := h[n];
      if next.Some? && next.value in h {
        h := h[next.value := h[next.value].(prevAll := None)];
      }
      h := h[n := links.(nextAll := PendingNext, prevAll := None)];
      q, exact := q[..|q| - 1], |q| - 1;
    }

    /** The loop of `FuturesUnordered::drop`: unlinks the head until the list is empty, also
        after an owning iterator has popped some tasks; every task left comes out once. */
    method UnlinkAll() returns (freed: seq<Node>)
      requires Valid() && Exclusive(View())
      modifies this
      ensures Valid() && q == [] && headAll == None
      ensures |freed| == |old(q)| && forall i :: 0 <= i < |freed| ==> freed[i] == old(q)[|freed| - 1 - i]
    {
      freed := [];
      while headAll.Some?
        invariant Valid() && Exclusive(View())
        invariant |freed| + |q| == |old(q)| && q == old(q)[..|q|]
        invariant forall i :: 0 <= i < |freed| ==> freed[i] == old(q)[|old(q)| - 1 - i]
        decreases |q|
      {
        var head := headAll.value;
        Unlink(head, |q| - 1);
        freed := freed + [head];
      }
    }
  }
}
