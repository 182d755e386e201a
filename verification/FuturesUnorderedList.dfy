/** The two halves of `FuturesUnordered` together: the tasks that the reference protocol of
    FuturesUnordereds calls listed are those in the pointer list of TaskLists, through every run. */
module FuturesUnorderedLists {
  import opened Runs
  import opened Chains
  import opened FuturesUnordereds
  import G = FuturesUnorderedGuarantees
  import Q = ReadyToRunQueues
  import L = TaskLists

  /** The set is inside an IntoIter. */
  predicate InIter(pc: OwnerPc) {
    pc.Iterating? || (pc.Releasing? && pc.caller.Iterator?) || (pc.Released? && pc.caller.Iterator?)
  }

  /** ... or being dropped, or gone. */
  predicate TakenApart(pc: OwnerPc) {
    || InIter(pc) || (pc.Releasing? && pc.caller.Dropper?) || (pc.Released? && pc.caller.Dropper?)
    || pc.Dropping? || pc.Gone? || pc.Draining? || pc.Drained? || pc.Aborted?
  }

  /** Nobody is inside the list, and it holds exactly the listed tasks, in the order in which
      they were linked. */
  ghost predicate Coupled(s: State, l: L.State) {
    && L.Inv(l) && L.Exclusive(l)
    && l.q == s.listing && Members(l.q) == All(s) && l.h.Keys == s.tasks.Keys
    && (InIter(s.owner) ==> l.consumed)
    && (l.consumed ==> TakenApart(s.owner))
  }

  lemma StaysApart(s: State, e: Step)
    requires Enabled(s, e) && TakenApart(s.owner)
    ensures TakenApart(Apply(s, e).owner)
  {
    match e
    case BeginPoll(_) => case EnterLoop => case Consume(_) => case Inspect => case ResetQueued => case StartChild =>
    case ChildReturns(_) => case Relink => case SelfWake => case ReleaseSwap => case ReleaseDrop =>
    case BeginIter => case IterNext(_) => case BeginDrop => case DropNext(_) => case DropOwnerRef => case Drain(_) =>
    case Push(_, _) => case Upgrade(_, _) => case SetWoken(_) => case SwapQueued(_) => case ClearNext(_) =>
    case SwapHead(_) => case LinkPrev(_) => case CallWake(_) => case AwStep(_) => case Leave(_) =>
  }

  lemma InIterFrom(s: State, e: Step)
    requires Enabled(s, e)
    ensures InIter(Apply(s, e).owner) ==> InIter(s.owner) || e.BeginIter?
  {
    match e
    case BeginPoll(_) => case EnterLoop => case Consume(_) => case Inspect => case ResetQueued => case StartChild =>
    case ChildReturns(_) => case Relink => case SelfWake => case ReleaseSwap => case ReleaseDrop =>
    case BeginIter => case IterNext(_) => case BeginDrop => case DropNext(_) => case DropOwnerRef => case Drain(_) =>
    case Push(_, _) => case Upgrade(_, _) => case SetWoken(_) => case SwapQueued(_) => case ClearNext(_) =>
    case SwapHead(_) => case LinkPrev(_) => case CallWake(_) => case AwStep(_) => case Leave(_) =>
  }

  /** Steps of the list lead from l to l'. */
  ghost predicate Leads(l: L.State, l': L.State) { Reaches<L.State, L.Step>(x => x == l, L.Next, l') }

  lemma LeadsNowhere(l: L.State)
    ensures Leads(l, l)
  {
    StartReached<L.State, L.Step>(x => x == l, L.Next, l);
  }

  lemma LeadsOn(l: L.State, m: L.State, e: L.Step, l': L.State)
    requires Leads(l, m) && L.Inv(m) && L.Enabled(m, e) && l' == L.Apply(m, e)
    ensures Leads(l, l') && L.Inv(l')
  {
    L.KeepsInv(m, e);
    NextReached<L.State, L.Step>(x => x == l, L.Next, m, e, l');
  }

  // ----- what a step does to the list -----

  datatype Change = Same | Links(n: Node) | Unlinks(n: Node)

  /** `push` and a pending child are linked; a child to be polled, handed out by an IntoIter or
      of a dropped set is unlinked. */
  ghost function ChangeOf(s: State, e: Step): Change
    requires Enabled(s, e)
  {
    match e
    case Push(_, n) => Links(n)
    case Relink => Links(s.owner.node)
    case Inspect => if s.tasks[s.owner.node].future then Unlinks(s.owner.node) else Same
    case DropNext(n) => Unlinks(n)
    case IterNext(n) => Unlinks(n)
    case _ => Same
  }

  /** The listing after a change. */
  function ListingAfter(q: seq<Node>, c: Change): seq<Node> {
    match c
    case Same => q
    case Links(n) => q + [n]
    case Unlinks(n) => Unlisted(q, n)
  }

  ghost predicate Changes(s: State, s': State, c: Change) {
    match c
    case Same => All(s') == All(s) && s'.tasks.Keys == s.tasks.Keys
    case Links(n) => n !in All(s) && All(s') == All(s) + {n} && s'.tasks.Keys == s.tasks.Keys + {n}
    case Unlinks(n) => n in All(s) && All(s') == All(s) - {n} && s'.tasks.Keys == s.tasks.Keys
  }

  lemma ChangesListing(s: State, e: Step)
    requires Enabled(s, e)
    ensures Apply(s, e).listing == ListingAfter(s.listing, ChangeOf(s, e))
  {
    match e
    case BeginPoll(_) => case EnterLoop => case Consume(_) => case Inspect => case ResetQueued => case StartChild =>
    case ChildReturns(_) => case Relink => case SelfWake => case ReleaseSwap => case ReleaseDrop =>
    case BeginIter => case IterNext(_) => case BeginDrop => case DropNext(_) => case DropOwnerRef => case Drain(_) =>
    case Push(_, _) => case Upgrade(_, _) => case SetWoken(_) => case SwapQueued(_) => case ClearNext(_) =>
    case SwapHead(_) => case LinkPrev(_) => case CallWake(_) => case AwStep(_) => case Leave(_) =>
  }

  lemma TaskStepLists(s: State, e: Step, n: Node)
    requires Enabled(s, e) && G.IsTaskStep(e) && n == G.TaskOf(s, e)
    requires n in s.tasks && TaskOk(s.tasks[n], n, s.owner)
    ensures var s' := Apply(s, e);
            && n in s'.tasks && s'.tasks == s.tasks[n := s'.tasks[n]]
            && match ChangeOf(s, e)
               case Same => s'.tasks[n].ref == Listed <==> s.tasks[n].ref == Listed
               case Links(m) => m == n && s.tasks[n].ref != Listed && s'.tasks[n].ref == Listed
               case Unlinks(m) => m == n && s.tasks[n].ref == Listed && s'.tasks[n].ref != Listed
  {
    match e
    case Inspect => case ReleaseDrop => case Relink => case ResetQueued => case StartChild => case ReleaseSwap => case DropNext(_) => case IterNext(_) =>
  }

  lemma TaskIsOk(s: State, e: Step)
    requires Structure(s) && Enabled(s, e) && G.IsTaskStep(e)
    ensures var n := G.TaskOf(s, e); n in s.tasks && TaskOk(s.tasks[n], n, s.owner)
  {
  }

  lemma ChangesTask(s: State, e: Step)
    requires Enabled(s, e) && G.IsTaskStep(e)
    requires var n := G.TaskOf(s, e); n in s.tasks && TaskOk(s.tasks[n], n, s.owner)
    ensures Changes(s, Apply(s, e), ChangeOf(s, e))
  {
    var n, s' := G.TaskOf(s, e), Apply(s, e);
    TaskStepLists(s, e, n);
    PutLists(s, s', n);
  }

  lemma PutLists(s: State, s': State, n: Node)
    requires n in s'.tasks && s'.tasks == s.tasks[n := s'.tasks[n]]
    ensures All(s') == if s'.tasks[n].ref == Listed then All(s) + {n} else All(s) - {n}
    ensures s'.tasks.Keys == s.tasks.Keys + {n}
  {
  }

  lemma ChangesNothing(s: State, s': State)
    requires s'.tasks.Keys == s.tasks.Keys && forall n :: n in s.tasks ==> s'.tasks[n].ref == s.tasks[n].ref
    ensures Changes(s, s', Same)
  {
  }

  lemma ChangesDrained(s: State, e: Q.Step)
    requires Drains(s, e) && Structure(s)
    ensures Changes(s, DoDrain(s, e), Same)
  {
    var d := Q.Apply(s.q, e).deq;
    if HandsOut(d) {
      DrainHandsOut(s, e, d.r.node);
    }
  }

  lemma ChangesOther(s: State, e: Step)
    requires Enabled(s, e) && !G.IsTaskStep(e) && !e.Push? && !e.Drain?
    ensures Changes(s, Apply(s, e), ChangeOf(s, e))
  {
    G.OthersFreeNothing(s, e);
    SameTasks(s, e);
    ChangesNothing(s, Apply(s, e));
  }

  lemma SameTasks(s: State, e: Step)
    requires Enabled(s, e) && !G.IsTaskStep(e) && !e.Push? && !e.Drain?
    ensures ChangeOf(s, e) == Same && Apply(s, e).tasks.Keys == s.tasks.Keys
  {
    match e
    case BeginPoll(_) => case EnterLoop => case Consume(_) => case ChildReturns(_) => case SelfWake =>
    case BeginIter => case BeginDrop => case DropOwnerRef =>
    case Upgrade(_, _) => case SetWoken(_) => case SwapQueued(_) => case ClearNext(_) =>
    case SwapHead(_) => case LinkPrev(_) => case CallWake(_) => case AwStep(_) => case Leave(_) =>
  }

  lemma ChangesList(s: State, e: Step)
    requires Structure(s) && Enabled(s, e)
    ensures Changes(s, Apply(s, e), ChangeOf(s, e))
  {
    if G.IsTaskStep(e) {
      TaskIsOk(s, e);
      ChangesTask(s, e);
    } else if e.Push? {
      PutLists(s, DoPush(s, e.t, e.n), e.n);
    } else if e.Drain? {
      ChangesDrained(s, e.e);
    } else {
      ChangesOther(s, e);
    }
  }

  // ----- the list follows -----

  lemma LinkBegins(l: L.State, m: L.State, n: Node) returns (l': L.State)
    requires Leads(l, m) && L.Inv(m) && L.Exclusive(m) && !m.consumed && n in m.h && n !in m.q
    ensures Leads(l, l') && L.Inv(l') && l'.readers == map[] && !l'.consumed
    ensures l'.q == m.q + [n] && l'.h.Keys == m.h.Keys
    ensures l'.linkers == map[OWNER := L.Sized(|m.q|, n, m.head)]
  {
    var l1 := L.DoSwapHead(m, OWNER, n);
    LeadsOn(l, m, L.SwapHeadStep(OWNER, n), l1);
    if m.q != [] { L.Quiet(m, |m.q| - 1); }
    l' := L.DoWriteLen(l1, OWNER);
    LeadsOn(l, l1, L.WriteLenStep(OWNER), l');
  }

  /** One whole `link`, with nobody else inside. */
  lemma LinkAlone(l: L.State, m: L.State, n: Node) returns (l': L.State)
    requires Leads(l, m) && L.Inv(m) && L.Exclusive(m) && !m.consumed && n in m.h && n !in m.q
    ensures Leads(l, l') && L.Inv(l') && L.Exclusive(l') && !l'.consumed
    ensures l'.q == m.q + [n] && l'.h.Keys == m.h.Keys
  {
    var l2 := LinkBegins(l, m, n);
    var l3 := L.DoStoreNext(l2, OWNER);
    LeadsOn(l, l2, L.StoreNextStep(OWNER), l3);
    if m.head.None? {
      l' := l3;
    } else {
      l' := L.DoStorePrev(l3, OWNER);
      LeadsOn(l, l3, L.StorePrevStep(OWNER), l');
    }
  }

  lemma {:induction false} UnlistedAt(q: seq<Node>, i: nat)
    requires L.Distinct(q) && i < |q|
    ensures Unlisted(q, q[i]) == L.Without(q, i)
  {
    var last := |q| - 1;
    if i < last {
      assert L.Apart(q, i, last);
      forall j, k ensures L.Apart(q[..last], j, k) { assert L.Apart(q, j, k); }
      UnlistedAt(q[..last], i);
      assert L.Without(q, i) == L.Without(q[..last], i) + [q[last]];
    }
  }

  /** `unlink`, or the owning iterator's own way to take out the head. */
  lemma TakeAlone(l: L.State, n: Node) returns (l': L.State)
    requires L.Inv(l) && L.Exclusive(l) && n in l.q
    ensures Leads(l, l') && L.Inv(l') && L.Exclusive(l') && l'.consumed == l.consumed
    ensures l'.q == Unlisted(l.q, n) && Members(l'.q) == Members(l.q) - {n} && l'.h.Keys == l.h.Keys
  {
    var i :| 0 <= i < |l.q| && l.q[i] == n;
    L.UnlinkNeverUnderflows(l, i);
    l' := L.DoUnlink(l, i);
    LeadsNowhere(l);
    LeadsOn(l, l, L.UnlinkStep(i), l');
    UnlistedAt(l.q, i);
    forall m ensures m in l'.q <==> m in l.q && m != n { L.UnlinkRemovesOne(l, i, m); }
  }

  lemma PopAlone(l: L.State) returns (l': L.State)
    requires L.Inv(l) && L.Exclusive(l) && l.consumed && l.q != []
    ensures Leads(l, l') && L.Inv(l') && L.Exclusive(l') && l'.consumed
    ensures var n := l.q[|l.q| - 1];
            l'.q == Unlisted(l.q, n) && Members(l'.q) == Members(l.q) - {n} && l'.h.Keys == l.h.Keys
  {
    L.Quiet(l, |l.q| - 1);
    l' := L.DoPopHead(l);
    LeadsNowhere(l);
    LeadsOn(l, l, L.PopHeadStep, l');
    L.PopShape(l);
  }

  /** `link` of a task that is new or was unlinked. */
  lemma LinkTask(l: L.State, n: Node) returns (l': L.State)
    requires L.Inv(l) && L.Exclusive(l) && !l.consumed && n !in l.q
    ensures Leads(l, l') && L.Inv(l') && L.Exclusive(l') && !l'.consumed
    ensures l'.q == l.q + [n] && l'.h.Keys == l.h.Keys + {n}
  {
    LeadsNowhere(l);
    var m := l;
    if n !in l.h {
      m := L.DoNewTask(l, n);
      LeadsOn(l, l, L.NewTaskStep(n), m);
    }
    l' := LinkAlone(l, m, n);
  }

  /** The list has done what the step did to the set. */
  ghost predicate Followed(s: State, e: Step, l: L.State, l': L.State)
    requires Enabled(s, e)
  {
    && Leads(l, l') && L.Inv(l') && L.Exclusive(l')
    && l'.q == ListingAfter(l.q, ChangeOf(s, e))
    && Members(l'.q) == All(Apply(s, e)) && l'.h.Keys == Apply(s, e).tasks.Keys
    && l'.consumed == (l.consumed || e.BeginIter?)
  }

  /** Every step of the set can be followed by steps of the list that leave it exactly the
      tasks then listed: `link`, `unlink`, or `IntoIter::next` where the set takes that. */
  lemma ListFollows(s: State, e: Step, l: L.State) returns (l': L.State)
    requires Structure(s) && Enabled(s, e) && Coupled(s, l)
    ensures Leads(l, l') && Coupled(Apply(s, e), l')
  {
    ChangesList(s, e);
    if e.BeginIter? {
      l' := FollowBeginIter(s, l);
    } else if e.IterNext? {
      l' := FollowIterNext(s, e.n, l);
    } else {
      l' := FollowChange(s, e, l);
    }
    StaysCoupled(s, e, l, l');
  }

  lemma StaysCoupled(s: State, e: Step, l: L.State, l': L.State)
    requires Enabled(s, e) && Coupled(s, l) && Followed(s, e, l, l')
    ensures Coupled(Apply(s, e), l')
  {
    ChangesListing(s, e);
    if TakenApart(s.owner) { StaysApart(s, e); }
    InIterFrom(s, e);
  }

  lemma FollowBeginIter(s: State, l: L.State) returns (l': L.State)
    requires Enabled(s, BeginIter) && Coupled(s, l) && Changes(s, DoBeginIter(s), Same)
    ensures Followed(s, BeginIter, l, l')
  {
    l' := L.DoIntoIter(l);
    LeadsNowhere(l);
    LeadsOn(l, l, L.IntoIterStep, l');
  }

  lemma FollowIterNext(s: State, n: Node, l: L.State) returns (l': L.State)
    requires Enabled(s, IterNext(n)) && Coupled(s, l) && Changes(s, DoIterNext(s, n), Unlinks(n))
    ensures Followed(s, IterNext(n), l, l')
  {
    l' := PopAlone(l);
  }

  lemma FollowChange(s: State, e: Step, l: L.State) returns (l': L.State)
    requires Enabled(s, e) && Coupled(s, l) && Changes(s, Apply(s, e), ChangeOf(s, e)) && !e.BeginIter? && !e.IterNext?
    ensures Followed(s, e, l, l')
  {
    var c := ChangeOf(s, e);
    if c.Links? { LinkedIsHere(s, e); }
    l' := ChangeList(s, Apply(s, e), c, l);
  }

  /** What the list does to follow a change by `push`, `poll_next` or `drop`. */
  lemma ChangeList(s: State, s': State, c: Change, l: L.State) returns (l': L.State)
    requires L.Inv(l) && L.Exclusive(l) && Members(l.q) == All(s) && l.h.Keys == s.tasks.Keys
    requires Changes(s, s', c) && (c.Links? ==> !l.consumed)
    ensures Leads(l, l') && L.Inv(l') && L.Exclusive(l') && l'.consumed == l.consumed
    ensures l'.q == ListingAfter(l.q, c) && Members(l'.q) == All(s') && l'.h.Keys == s'.tasks.Keys
  {
    match c
    case Same => LeadsNowhere(l); l' := l;
    case Unlinks(n) => l' := TakeAlone(l, n);
    case Links(n) =>
      l' := LinkTask(l, n);
      assert Members(l.q + [n]) == Members(l.q) + {n};
  }

  /** Nothing is linked once the set is taken apart. */
  lemma LinkedIsHere(s: State, e: Step)
    requires Enabled(s, e) && ChangeOf(s, e).Links?
    ensures !TakenApart(s.owner)
  {
    match e
    case Push(_, _) => case Relink =>
  }

  /** The states ls of a list, one for each state of the run r of the set. */
  ghost predicate Follows(r: Run<State, Step>, ls: seq<L.State>) {
    && 1 <= |ls| <= |r.states| && ls[0] == L.Init
    && (forall i :: 0 <= i < |ls| ==> Coupled(r.states[i], ls[i]))
    && (forall i :: 0 <= i < |ls| - 1 ==> Leads(ls[i], ls[i + 1]))
  }

  /** So every run of the reference protocol is accompanied by a run of the pointer list: after
      each step the list holds exactly the listed tasks. */
  lemma {:induction false} ListGoesAlong(r: Run<State, Step>, k: nat) returns (ls: seq<L.State>)
    requires IsRun(IsInit, Next, r) && k < |r.states|
    ensures |ls| == k + 1 && Follows(r, ls)
  {
    if k == 0 {
      ls := [L.Init];
    } else {
      var before := ListGoesAlong(r, k - 1);
      assert Next(r.states[k - 1], r.steps[k - 1], r.states[k - 1 + 1]);
      G.StructureInEveryState(r, k - 1);
      var l := ListFollows(r.states[k - 1], r.steps[k - 1], before[k - 1]);
      FollowsOn(r, before, l);
      ls := before + [l];
    }
  }

  lemma FollowsOn(r: Run<State, Step>, ls: seq<L.State>, l: L.State)
    requires Follows(r, ls) && |ls| < |r.states| && Coupled(r.states[|ls|], l) && Leads(ls[|ls| - 1], l)
    ensures Follows(r, ls + [l])
  {
  }

  /** What the set reads off the list is what the reference protocol counts: `head_all` is null
      when no task is listed, and as long as the set is not taken apart `len()` is the number
      of listed tasks. */
  lemma LenCountsListed(s: State, l: L.State)
    requires Coupled(s, l)
    ensures l.head == None <==> All(s) == {}
    ensures !TakenApart(s.owner) ==> L.HeadLen(l) == |All(s)|
  {
    if !TakenApart(s.owner) { L.HeadLenIsExact(l); }
    forall i, j | 0 <= i < j < |l.q| ensures l.q[i] != l.q[j] { assert L.Apart(l.q, i, j); }
    MembersOfDistinct(l.q);
    if l.q != [] { assert l.q[0] in Members(l.q); }
  }

  /** The head of the list is a listed task, so the loops of `drop` and of the owning iterator
      go on until no task is listed. */
  lemma HeadIsListed(s: State, l: L.State)
    requires Coupled(s, l) && All(s) != {}
    ensures l.head.Some? && l.head.value in All(s) && IsHead(s, l.head.value)
  {
    assert Members([]) == {};
    assert l.q[|l.q| - 1] in Members(l.q);
  }
}
