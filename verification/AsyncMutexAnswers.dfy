/** What the calls on the futures-aware mutex answer, and who holds its lock when
    (futures-util/src/lock/mutex.rs). */
module AsyncMutexAnswers {
  import opened Runs
  import opened AsyncMutexes

  lemma StepOf(r: Run<State, Step>, k: nat)
    requires IsRun(IsInit, Next, r) && k < |r.steps|
    ensures Enabled(r.states[k], r.steps[k]) && r.states[k + 1] == Apply(r.states[k], r.steps[k])
    ensures Inv(r.states[k])
  {
    assert Next(r.states[k], r.steps[k], r.states[k + 1]);
    InvInEveryState(r, k);
  }

  /** Whose step it is; only f's own steps move the future f. */
  lemma OthersLeave(s: State, e: Step, f: Tid)
    requires Enabled(s, e) && e.t != f
    ensures var s' := Apply(s, e);
            && (f in s'.futures <==> f in s.futures) && (f in s.futures ==> s'.futures[f] == s.futures[f])
            && (f in s'.guards <==> f in s.guards)
  {
    match e
    case TryLock(_) => case New(_) => case BeginPoll(_, _) => case FirstTry(_) => case EditSlab(_, _) => case SetBitStep(_) =>
    case SecondTry(_) => case BeginDrop(_) => case Remove(_, _) => case ClearBitStep(_) => case Unlock(_) => case WakeFirst(_, _) =>
  }

  // ----- the guard -----

  predicate Tries(e: Step) { e.TryLock? || e.FirstTry? || e.SecondTry? }

  lemma GuardMoves(s: State, e: Step)
    requires LockOk(s.locked, s.guards) && Enabled(s, e) && (e.t in s.futures ==> FutureOk(s.futures[e.t], e.t in s.guards))
    ensures var s', f := Apply(s, e), e.t;
            && (Tries(e) ==> f !in s.guards && (f in s'.guards <==> !s.locked))
            && (!Tries(e) && !e.Unlock? ==> (f in s'.guards <==> f in s.guards))
            && (e.Unlock? ==> f in s.guards && f !in s'.guards && !s'.locked)
  {
    match e
    case TryLock(_) => case New(_) => case BeginPoll(_, _) => case FirstTry(_) => case EditSlab(_, _) => case SetBitStep(_) =>
    case SecondTry(_) => case BeginDrop(_) => case Remove(_, _) => case ClearBitStep(_) => case Unlock(_) => case WakeFirst(_, _) =>
  }

  /** Whoever tries a free lock gets it, and nobody a taken one; a guard is held until its own
      drop, which frees the lock. */
  lemma LockGoesToWhoTries(r: Run<State, Step>, i: nat, f: Tid)
    requires IsRun(IsInit, Next, r) && i < |r.steps|
    ensures f !in r.states[i].guards && f in r.states[i + 1].guards <==> Tries(r.steps[i]) && r.steps[i].t == f && !r.states[i].locked
    ensures f in r.states[i].guards && f !in r.states[i + 1].guards <==> r.steps[i] == Unlock(f)
    ensures r.steps[i] == Unlock(f) ==> !r.states[i + 1].locked
  {
    StepOf(r, i);
    assert r.steps[i].t in r.states[i].futures ==> FutureOk(r.states[i].futures[r.steps[i].t], r.steps[i].t in r.states[i].guards);
    GuardMoves(r.states[i], r.steps[i]);
    if r.steps[i].t != f { OthersLeave(r.states[i], r.steps[i], f); }
  }

  // ----- a poll -----

  predicate Calls(e: Step, f: Tid) { e.t == f && (e.BeginPoll? || e.BeginDrop?) }

  /** f's entry is that of a poll with waker w that began when `mark` wake-ups had happened. */
  predicate EnteredBy(s: State, f: Tid, w: Waker, mark: nat) {
    && f in s.futures && s.futures[f].key.Some? && s.futures[f].key.value in s.entered
    && var x := s.entered[s.futures[f].key.value]; x.owner == f && x.waker == w && mark <= x.mark
  }

  /** f is inside a poll with waker w, or has answered it: Ready in Done, Pending in Rest. */
  predicate Serves(s: State, f: Tid, w: Waker, mark: nat) {
    && f in s.futures && mark <= |s.log|
    && match s.futures[f].pc
       case Try1(v) => v == w
       case WantSlab(v) => v == w
       case SetBit => EnteredBy(s, f, w, mark)
       case Try2 => EnteredBy(s, f, w, mark)
       case Removing(wakeAnother) => !wakeAnother
       case ClearBit(acquired) => acquired
       case Done => true
       case Rest => EnteredBy(s, f, w, mark)
       case Dropped => false
  }

  lemma OwnServes(s: State, e: Step, w: Waker, mark: nat)
    requires Enabled(s, e) && e.t in s.futures && !Calls(e, e.t) && Serves(s, e.t, w, mark)
    ensures Serves(Apply(s, e), e.t, w, mark)
  {
    match e
    case TryLock(_) => case New(_) => case FirstTry(_) => case EditSlab(_, _) => case SetBitStep(_) =>
    case SecondTry(_) => case Remove(_, _) => case ClearBitStep(_) => case Unlock(_) => case WakeFirst(_, _) =>
  }

  /** Another's step leaves f's entry as it was put in. */
  lemma OthersLeaveEntry(s: State, e: Step, f: Tid)
    requires KeysOk(s.entered, s.futures) && s.entered.Keys == s.slab.Keys
    requires Enabled(s, e) && e.t != f && f in s.futures && s.futures[f].key.Some?
    ensures var k := s.futures[f].key.value; k in s.entered && k in Apply(s, e).entered && Apply(s, e).entered[k] == s.entered[k]
  {
    match e
    case TryLock(_) => case New(_) => case BeginPoll(_, _) => case FirstTry(_) => case EditSlab(_, _) => case SetBitStep(_) =>
    case SecondTry(_) => case BeginDrop(_) => case Remove(_, _) => case ClearBitStep(_) => case Unlock(_) => case WakeFirst(_, _) =>
  }

  lemma LogGrows(s: State, e: Step)
    requires Enabled(s, e)
    ensures |s.log| <= |Apply(s, e).log| <= |s.log| + 1
  {
    match e
    case TryLock(_) => case New(_) => case BeginPoll(_, _) => case FirstTry(_) => case EditSlab(_, _) => case SetBitStep(_) =>
    case SecondTry(_) => case BeginDrop(_) => case Remove(_, _) => case ClearBitStep(_) => case Unlock(_) => case WakeFirst(_, _) =>
  }

  lemma ServesOneStep(s: State, e: Step, f: Tid, w: Waker, mark: nat)
    requires Inv(s) && Enabled(s, e) && !Calls(e, f) && Serves(s, f, w, mark)
    ensures Serves(Apply(s, e), f, w, mark)
  {
    if e.t == f {
      OwnServes(s, e, w, mark);
    } else {
      LogGrows(s, e);
      OthersLeave(s, e, f);
      if s.futures[f].key.Some? { OthersLeaveEntry(s, e, f); }
    }
  }

  /** A poll that has answered Pending has left its own waker in the future's entry. */
  lemma PollServes(r: Run<State, Step>, i: nat, k: nat, f: Tid, w: Waker)
    requires IsRun(IsInit, Next, r) && i < k < |r.states| && r.steps[i] == BeginPoll(f, w)
    requires forall j :: i < j < k ==> !Calls(r.steps[j], f)
    ensures Serves(r.states[k], f, w, |r.states[i].log|)
  {
    StepOf(r, i);
    var mark := |r.states[i].log|;
    var keep := (s: State) => Serves(s, f, w, mark);
    forall j | i + 1 <= j < k && keep(r.states[j]) ensures keep(r.states[j + 1]) {
      StepOf(r, j);
      ServesOneStep(r.states[j], r.steps[j], f, w, mark);
    }
    Persistence(keep, r, i + 1, k);
  }

  lemma ComesToRest(s: State, e: Step, f: Tid)
    requires Enabled(s, e) && f in s.futures && !At(s, f, Rest) && At(Apply(s, e), f, Rest)
    ensures e == SecondTry(f) && s.locked
  {
    if e.t != f { OthersLeave(s, e, f); } else { OwnRest(s, e); }
  }

  lemma OwnRest(s: State, e: Step)
    requires Enabled(s, e) && e.t in s.futures && !At(s, e.t, Rest) && At(Apply(s, e), e.t, Rest)
    ensures e.SecondTry? && s.locked
  {
    match e
    case TryLock(_) => case New(_) => case BeginPoll(_, _) => case FirstTry(_) => case EditSlab(_, _) => case SetBitStep(_) =>
    case SecondTry(_) => case BeginDrop(_) => case Remove(_, _) => case ClearBitStep(_) => case Unlock(_) => case WakeFirst(_, _) =>
  }

  /** So whenever a poll is answered Pending, its waker stays entered or is woken: the lock was
      held when the poll tried it after it had entered the waker (the n-th step), and the entry
      is that of this poll. */
  lemma PendingPollIsEntered(r: Run<State, Step>, i: nat, k: nat, f: Tid, w: Waker) returns (n: nat)
    requires IsRun(IsInit, Next, r) && i < k < |r.states| && r.steps[i] == BeginPoll(f, w)
    requires forall j :: i < j < k ==> !Calls(r.steps[j], f)
    requires At(r.states[k], f, Rest)
    ensures i < n < k && r.steps[n] == SecondTry(f) && r.states[n].locked && EnteredBy(r.states[n], f, w, |r.states[i].log|)
    ensures var s, key := r.states[k], r.states[k].futures[f].key;
            && key.Some? && key.value in s.slab
            && (s.slab[key.value] == Waiting(w) || WokenSince(s.log, |r.states[i].log|, w))
  {
    var mark := |r.states[i].log|;
    StepOf(r, i);
    PollServes(r, i, k, f, w);
    n := Origin((s: State) => At(s, f, Rest), r, i + 1, k);
    StepOf(r, n);
    PollServes(r, i, n, f, w);
    ComesToRest(r.states[n], r.steps[n], f);
    InvInEveryState(r, k);
    var s, key := r.states[k], r.states[k].futures[f].key.value;
    assert EntryOk(s.entered[key], s.slab[key], s.log);
    if s.slab[key] == Woken { WokenEarlier(s.log, mark, s.entered[key].mark, w); }
  }

  lemma WokenEarlier(log: seq<Waker>, first: nat, later: nat, w: Waker)
    requires first <= later && WokenSince(log, later, w)
    ensures WokenSince(log, first, w)
  {
    var i :| 0 <= i < |log[later..]| && log[later..][i] == w;
    assert log[first..][later - first + i] == w;
  }

  lemma GetsDone(s: State, e: Step, f: Tid)
    requires Inv(s) && Enabled(s, e) && f in s.futures && !At(s, f, Done) && At(Apply(s, e), f, Done)
    ensures f in Apply(s, e).guards
  {
    assert FutureOk(s.futures[f], f in s.guards);
    if e.t != f { OthersLeave(s, e, f); } else { OwnDone(s, e); }
  }

  lemma OwnDone(s: State, e: Step)
    requires Enabled(s, e) && e.t in s.futures && FutureOk(s.futures[e.t], e.t in s.guards)
    requires !At(s, e.t, Done) && At(Apply(s, e), e.t, Done)
    ensures e.t in Apply(s, e).guards
  {
    match e
    case TryLock(_) => case New(_) => case BeginPoll(_, _) => case FirstTry(_) => case EditSlab(_, _) => case SetBitStep(_) =>
    case SecondTry(_) => case BeginDrop(_) => case Remove(_, _) => case ClearBitStep(_) => case Unlock(_) => case WakeFirst(_, _) =>
  }

  /** And a poll that has answered Ready holds the one guard until that is dropped. */
  lemma ReadyHoldsGuard(r: Run<State, Step>, k: nat, f: Tid)
    requires IsRun(IsInit, Next, r) && k < |r.states| && At(r.states[k], f, Done)
    requires forall n :: 0 <= n < k ==> r.steps[n] != Unlock(f)
    ensures f in r.states[k].guards
  {
    if f !in r.states[k].guards {
      var n := Origin((s: State) => At(s, f, Done) && f !in s.guards, r, 0, k);
      StepOf(r, n);
      LockGoesToWhoTries(r, n, f);
      if f in r.states[n].futures {
        if !At(r.states[n], f, Done) { GetsDone(r.states[n], r.steps[n], f); }
      } else if r.steps[n].t != f {
        OthersLeave(r.states[n], r.steps[n], f);
      }
    }
  }

  // ----- dropping a future, and the length of the calls -----

  /** f is being dropped, or is gone. */
  predicate Leaves(s: State, f: Tid) {
    f in s.futures && f !in s.guards && (s.futures[f].pc == Removing(true) || s.futures[f].pc == ClearBit(false) || s.futures[f].pc == Dropped)
  }

  lemma OwnLeaves(s: State, e: Step)
    requires Enabled(s, e) && Leaves(s, e.t)
    ensures Leaves(Apply(s, e), e.t)
  {
    match e
    case Remove(_, _) => case ClearBitStep(_) => case WakeFirst(_, _) =>
    case _ => assert false;
  }

  /** A future that is dropped before it has the lock never gets it, and leaves no entry. */
  lemma DroppedLeavesNothing(r: Run<State, Step>, i: nat, k: nat, f: Tid)
    requires IsRun(IsInit, Next, r) && i < k < |r.states| && r.steps[i] == BeginDrop(f)
    ensures Leaves(r.states[k], f)
    ensures r.states[k].futures[f].pc == Dropped ==> forall j :: j in r.states[k].entered ==> r.states[k].entered[j].owner != f
  {
    StepOf(r, i);
    assert FutureOk(r.states[i].futures[f], f in r.states[i].guards);
    var keep := (s: State) => Leaves(s, f);
    forall j | i + 1 <= j < k && keep(r.states[j]) ensures keep(r.states[j + 1]) {
      StepOf(r, j);
      if r.steps[j].t == f { OwnLeaves(r.states[j], r.steps[j]); } else { OthersLeave(r.states[j], r.steps[j], f); }
    }
    Persistence(keep, r, i + 1, k);
    InvInEveryState(r, k);
    assert FutureOk(r.states[k].futures[f], f in r.states[k].guards);
  }

  /** The steps f has left at most in its poll or drop. */
  function Left(s: State, f: Tid): nat {
    if f !in s.futures then 0
    else match s.futures[f].pc
         case Try1(_) => 6
         case WantSlab(_) => 5
         case SetBit => 4
         case Try2 => 3
         case Removing(_) => 2
         case ClearBit(_) => 1
         case _ => 0
  }

  predicate InCall(e: Step, f: Tid) {
    e.t == f && (e.FirstTry? || e.EditSlab? || e.SetBitStep? || e.SecondTry? || e.Remove? || e.ClearBitStep?)
  }

  lemma LeftFalls(s: State, e: Step, f: Tid)
    requires Enabled(s, e) && !Calls(e, f)
    ensures Left(Apply(s, e), f) + (if InCall(e, f) then 1 else 0) <= Left(s, f)
  {
    if e.t != f { OthersLeave(s, e, f); } else { OwnLeft(s, e); }
  }

  lemma OwnLeft(s: State, e: Step)
    requires Enabled(s, e) && !Calls(e, e.t)
    ensures Left(Apply(s, e), e.t) + (if InCall(e, e.t) then 1 else 0) <= Left(s, e.t)
  {
    match e
    case TryLock(_) => case New(_) => case FirstTry(_) => case EditSlab(_, _) => case SetBitStep(_) =>
    case SecondTry(_) => case Remove(_, _) => case ClearBitStep(_) => case Unlock(_) => case WakeFirst(_, _) =>
  }

  lemma BeginLeft(s: State, e: Step, f: Tid)
    requires Enabled(s, e) && Calls(e, f)
    ensures Left(Apply(s, e), f) <= if e.BeginPoll? then 6 else 2
  {
  }

  lemma LeftInRun(r: Run<State, Step>, j: nat, f: Tid)
    requires IsRun(IsInit, Next, r) && j < |r.steps|
    ensures !Calls(r.steps[j], f) ==> Left(r.states[j + 1], f) + (if InCall(r.steps[j], f) then 1 else 0) <= Left(r.states[j], f)
    ensures Calls(r.steps[j], f) ==> Left(r.states[j + 1], f) <= if r.steps[j].BeginPoll? then 6 else 2
  {
    assert Next(r.states[j], r.steps[j], r.states[j + 1]);
    if Calls(r.steps[j], f) { BeginLeft(r.states[j], r.steps[j], f); } else { LeftFalls(r.states[j], r.steps[j], f); }
  }

  /** A poll takes at most six steps, and a drop two. */
  lemma CallsAreShort(r: Run<State, Step>, i: nat, k: nat, f: Tid)
    requires IsRun(IsInit, Next, r) && i < k < |r.states| && Calls(r.steps[i], f)
    requires forall j :: i < j < k ==> !Calls(r.steps[j], f)
    ensures Count((e: Step) => InCall(e, f), r.steps, i + 1, k) <= if r.steps[i].BeginPoll? then 6 else 2
  {
    LeftInRun(r, i, f);
    var keep, rank, counts := (s: State) => true, (s: State) => Left(s, f), (e: Step) => InCall(e, f);
    forall j | i + 1 <= j < k && keep(r.states[j])
      ensures keep(r.states[j + 1]) && rank(r.states[j + 1]) + (if counts(r.steps[j]) then 1 else 0) <= rank(r.states[j])
    {
      LeftInRun(r, j, f);
    }
    RankFalls(keep, rank, counts, r, i + 1, k);
  }
}
