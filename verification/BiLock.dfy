/** futures-util/src/lock/bilock.rs: a lock between two handles, whose one word is null, one,
    or a pointer to a boxed waker.

    Each handle has at most one `poll_lock` in progress, and none while it holds the guard or
    is dropping it.  A box is known by an id; `boxes` holds those that are allocated. */
module BiLocks {
  import opened Runs

  type BoxId = nat

  datatype Word = Null | One | Boxed(b: BoxId)

  datatype Handle = Left | Right

  datatype Pc =
    | Idle
    | AtSwap(w: Waker, held: Option<BoxId>)    // top of the loop; a box may be left from the round before
    | AtCas(w: Waker, me: BoxId)
    | Holding
    | Unlocked(b: BoxId)                        // unlock took a box out of the word and wakes it next
    | Gone

  /** `parked` is the last poll_lock, if it returned Pending. */
  datatype Side = Side(pc: Pc, parked: Option<Suspended>, mark: nat)

  datatype State = State(word: Word, left: Side, right: Side, boxes: map<BoxId, Waker>, next: BoxId, log: seq<Waker>)

  const Init := State(Null, Side(Idle, None, 0), Side(Idle, None, 0), map[], 0, [])

  ghost predicate IsInit(s: State) { s == Init }

  function Other(h: Handle): Handle { if h == Left then Right else Left }

  function At(s: State, h: Handle): Side { if h == Left then s.left else s.right }

  function Put(s: State, h: Handle, x: Side): State { if h == Left then s.(left := x) else s.(right := x) }

  function GoTo(s: State, h: Handle, pc: Pc): State { Put(s, h, At(s, h).(pc := pc)) }

  function Free(boxes: map<BoxId, Waker>, b: Option<BoxId>): map<BoxId, Waker> {
    if b.Some? then boxes - {b.value} else boxes
  }

  function DoBeginPoll(s: State, h: Handle, w: Waker): State { Put(s, h, Side(AtSwap(w, None), None, |s.log|)) }

  /** `swap(1)`, and the box for the compare_exchange: the one found, the one left over, or a new one. */
  function DoSwap(s: State, h: Handle): State
    requires At(s, h).pc.AtSwap?
  {
    var w, held := At(s, h).pc.w, At(s, h).pc.held;
    match s.word
    case Null => GoTo(s, h, Holding).(word := One, boxes := Free(s.boxes, held))
    case One =>
      if held.Some? then GoTo(s, h, AtCas(w, held.value))
      else GoTo(s, h, AtCas(w, s.next)).(boxes := s.boxes[s.next := w], next := s.next + 1)
    case Boxed(b) => GoTo(s, h, AtCas(w, b)).(word := One, boxes := Free(s.boxes, held)[b := w])
  }

  /** `compare_exchange(1, me)`; it would panic on a box, where this is not enabled. */
  function DoCas(s: State, h: Handle): State
    requires At(s, h).pc.AtCas? && !s.word.Boxed?
  {
    var w, me := At(s, h).pc.w, At(s, h).pc.me;
    if s.word == One then Put(s, h, Side(Idle, Some(Suspended(w, At(s, h).mark)), At(s, h).mark)).(word := Boxed(me))
    else GoTo(s, h, AtSwap(w, Some(me)))
  }

  /** `unlock`: `swap(null)`; it would panic on null. */
  function DoUnlock(s: State, h: Handle): State
    requires s.word != Null
  {
    GoTo(s, h, if s.word == One then Idle else Unlocked(s.word.b)).(word := Null)
  }

  /** `Box::from_raw(n).wake()`. */
  function DoWake(s: State, h: Handle): State
    requires At(s, h).pc.Unlocked? && At(s, h).pc.b in s.boxes
  {
    GoTo(s, h, Idle).(boxes := s.boxes - {At(s, h).pc.b}, log := s.log + [s.boxes[At(s, h).pc.b]])
  }

  function DoDropHandle(s: State, h: Handle): State { GoTo(s, h, Gone) }

  datatype Step =
    | BeginPoll(h: Handle, w: Waker) | SwapStep(h: Handle) | CasStep(h: Handle) | Unlock(h: Handle) | WakeStep(h: Handle)
    | DropHandle(h: Handle)

  predicate Enabled(s: State, e: Step) {
    match e
    case BeginPoll(h, _) => At(s, h).pc == Idle
    case SwapStep(h) => At(s, h).pc.AtSwap?
    case CasStep(h) => At(s, h).pc.AtCas? && !s.word.Boxed?
    case Unlock(h) => At(s, h).pc == Holding && s.word != Null
    case WakeStep(h) => At(s, h).pc.Unlocked? && At(s, h).pc.b in s.boxes
    case DropHandle(h) => At(s, h).pc == Idle
  }

  function Apply(s: State, e: Step): State
    requires Enabled(s, e)
  {
    match e
    case BeginPoll(h, w) => DoBeginPoll(s, h, w)
    case SwapStep(h) => DoSwap(s, h)
    case CasStep(h) => DoCas(s, h)
    case Unlock(h) => DoUnlock(s, h)
    case WakeStep(h) => DoWake(s, h)
    case DropHandle(h) => DoDropHandle(s, h)
  }

  ghost predicate Next(s: State, e: Step, s': State) { Enabled(s, e) && s' == Apply(s, e) }

  // ----- the invariant -----

  /** The box a handle owns, and the word owns. */
  function Owned(pc: Pc): Option<BoxId> {
    match pc
    case AtSwap(_, held) => held
    case AtCas(_, me) => Some(me)
    case Unlocked(b) => Some(b)
    case _ => None
  }

  function InWord(word: Word): Option<BoxId> { if word.Boxed? then Some(word.b) else None }

  function Elems(b: Option<BoxId>): set<BoxId> { if b.Some? then {b.value} else {} }

  /** The word is null exactly when nobody holds the lock, and both never do. */
  predicate LockOk(s: State) {
    && (s.word == Null <==> s.left.pc != Holding && s.right.pc != Holding)
    && !(s.left.pc == Holding && s.right.pc == Holding)
  }

  /** A handle that has a box and is about to park finds no box in the word. */
  predicate CasOk(word: Word, pc: Pc) { pc.AtCas? || (pc.AtSwap? && pc.held.Some?) ==> !word.Boxed? }

  /** Every allocated box has exactly one owner. */
  predicate BoxesOk(s: State) {
    var l, r, x := Elems(Owned(s.left.pc)), Elems(Owned(s.right.pc)), Elems(InWord(s.word));
    && l * r == {} && l * x == {} && r * x == {}
    && s.boxes.Keys == l + r + x
    && forall b :: b in s.boxes ==> b < s.next
  }

  /** What is in a box: the waker of the handle that is about to park it. */
  predicate ContentOk(pc: Pc, boxes: map<BoxId, Waker>) {
    && (pc.AtCas? ==> pc.me in boxes && boxes[pc.me] == pc.w)
    && (pc.AtSwap? && pc.held.Some? ==> pc.held.value in boxes && boxes[pc.held.value] == pc.w)
  }

  /** The waker of a parked handle is in the word, or in the other's hands after its unlock, or was called. */
  predicate ParkedOk(me: Side, other: Pc, word: Word, boxes: map<BoxId, Waker>, log: seq<Waker>) {
    && me.mark <= |log|
    && (me.parked.Some? ==>
          var p := me.parked.value;
          && p.mark <= |log| && (me.pc.Idle? || me.pc.Gone?)
          && ((word.Boxed? && word.b in boxes && boxes[word.b] == p.w && other == Holding)
              || (other.Unlocked? && other.b in boxes && boxes[other.b] == p.w)
              || Woken(log, p)))
  }

  predicate Inv(s: State) {
    && LockOk(s) && CasOk(s.word, s.left.pc) && CasOk(s.word, s.right.pc) && BoxesOk(s)
    && ContentOk(s.left.pc, s.boxes) && ContentOk(s.right.pc, s.boxes)
    && ParkedOk(s.left, s.right.pc, s.word, s.boxes, s.log)
    && ParkedOk(s.right, s.left.pc, s.word, s.boxes, s.log)
  }

  lemma KeepsBegin(s: State, h: Handle, w: Waker)
    requires Inv(s) && Enabled(s, BeginPoll(h, w))
    ensures Inv(DoBeginPoll(s, h, w))
  {
  }

  lemma KeepsSwap(s: State, h: Handle)
    requires Inv(s) && Enabled(s, SwapStep(h))
    ensures Inv(DoSwap(s, h))
  {
  }

  lemma KeepsCas(s: State, h: Handle)
    requires Inv(s) && Enabled(s, CasStep(h))
    ensures Inv(DoCas(s, h))
  {
  }

  lemma KeepsUnlock(s: State, h: Handle)
    requires Inv(s) && Enabled(s, Unlock(h))
    ensures Inv(DoUnlock(s, h))
  {
  }

  lemma KeepsWake(s: State, h: Handle)
    requires Inv(s) && Enabled(s, WakeStep(h))
    ensures Inv(DoWake(s, h))
  {
    var w := s.boxes[At(s, h).pc.b];
    forall p: Suspended | p.mark <= |s.log| && (Woken(s.log, p) || w == p.w) ensures Woken(s.log + [w], p) { WokenStays(s.log, p.mark, p.w, w); }
  }

  lemma KeepsDrop(s: State, h: Handle)
    requires Inv(s) && Enabled(s, DropHandle(h))
    ensures Inv(DoDropHandle(s, h))
  {
  }

  lemma KeepsInv(s: State, e: Step)
    requires Inv(s) && Enabled(s, e)
    ensures Inv(Apply(s, e))
  {
    match e
    case BeginPoll(h, w) => KeepsBegin(s, h, w);
    case SwapStep(h) => KeepsSwap(s, h);
    case CasStep(h) => KeepsCas(s, h);
    case Unlock(h) => KeepsUnlock(s, h);
    case WakeStep(h) => KeepsWake(s, h);
    case DropHandle(h) => KeepsDrop(s, h);
  }

  lemma InvInEveryState(r: Run<State, Step>, k: nat)
    requires IsRun(IsInit, Next, r) && k < |r.states|
    ensures Inv(r.states[k])
  {
    forall s, e, s' | Inv(s) && Next(s, e, s') ensures Inv(s') { KeepsInv(s, e); }
    Invariance(IsInit, Next, Inv, r, k);
  }

  // ----- what the source promises -----

  /** The two handles never hold the lock together, and the word is null exactly while neither does. */
  lemma ExclusiveAndNull(r: Run<State, Step>, k: nat)
    requires IsRun(IsInit, Next, r) && k < |r.states|
    ensures LockOk(r.states[k])
  {
    InvInEveryState(r, k);
  }

  /** Neither panic is reached: the compare_exchange never finds a box, `unlock` never finds null. */
  lemma NeverPanics(r: Run<State, Step>, k: nat, h: Handle)
    requires IsRun(IsInit, Next, r) && k < |r.states|
    ensures var s := r.states[k];
            && (At(s, h).pc.AtCas? ==> Enabled(s, CasStep(h)))
            && (At(s, h).pc.Holding? ==> Enabled(s, Unlock(h)))
            && (At(s, h).pc.Unlocked? ==> Enabled(s, WakeStep(h)))
  {
    InvInEveryState(r, k);
  }

  /** Every allocated box has one owner, the word or one of the handles; when both handles are
      gone the word is null, as `Inner::drop` asserts, and no box is left. */
  lemma BoxesOwnedOnce(r: Run<State, Step>, k: nat)
    requires IsRun(IsInit, Next, r) && k < |r.states|
    ensures BoxesOk(r.states[k])
    ensures var s := r.states[k]; s.left.pc == Gone && s.right.pc == Gone ==> s.word == Null && s.boxes == map[]
  {
    InvInEveryState(r, k);
    var s := r.states[k];
    if s.left.pc == Gone && s.right.pc == Gone { assert s.boxes.Keys == {}; }
  }

  /** A handle whose last `poll_lock` returned Pending has been woken, unless the other handle
      still holds the lock, with the waker in the word, or is about to make the call in its `unlock`. */
  lemma ParkedHandleIsWoken(r: Run<State, Step>, k: nat, h: Handle)
    requires IsRun(IsInit, Next, r) && k < |r.states| && At(r.states[k], h).parked.Some?
    ensures var s, p := r.states[k], At(r.states[k], h).parked.value;
            || (At(s, Other(h)).pc == Holding && s.word.Boxed? && s.word.b in s.boxes && s.boxes[s.word.b] == p.w)
            || (At(s, Other(h)).pc.Unlocked? && At(s, Other(h)).pc.b in s.boxes && s.boxes[At(s, Other(h)).pc.b] == p.w)
            || Woken(s.log, p)
  {
    InvInEveryState(r, k);
  }

  lemma StepOf(r: Run<State, Step>, k: nat)
    requires IsRun(IsInit, Next, r) && k < |r.steps|
    ensures Enabled(r.states[k], r.steps[k]) && r.states[k + 1] == Apply(r.states[k], r.steps[k]) && Inv(r.states[k])
  {
    assert Next(r.states[k], r.steps[k], r.states[k + 1]);
    InvInEveryState(r, k);
  }

  /** A lock is held until its holder unlocks it, and is then free. */
  lemma HeldUntilUnlocked(r: Run<State, Step>, i: nat, h: Handle)
    requires IsRun(IsInit, Next, r) && i < |r.steps|
    ensures At(r.states[i], h).pc == Holding ==> (At(r.states[i + 1], h).pc != Holding <==> r.steps[i] == Unlock(h))
    ensures r.steps[i] == Unlock(h) ==> r.states[i + 1].word == Null
  {
    StepOf(r, i);
    match r.steps[i]
    case BeginPoll(_, _) => case SwapStep(_) => case CasStep(_) => case Unlock(_) => case WakeStep(_) => case DropHandle(_) =>
  }

  predicate Begins(e: Step, h: Handle) { (e.BeginPoll? || e.Unlock? || e.DropHandle?) && e.h == h }

  /** The handle is inside a poll_lock with waker w, or has answered it: Ready in Holding,
      Pending in Idle. */
  predicate Serves(x: Side, w: Waker, mark: nat) {
    && x.mark == mark
    && match x.pc
       case AtSwap(v, _) => v == w
       case AtCas(v, _) => v == w
       case Holding => true
       case Idle => x.parked == Some(Suspended(w, mark))
       case _ => false
  }

  lemma ServesOneStep(s: State, e: Step, h: Handle, w: Waker, mark: nat)
    requires Enabled(s, e) && !Begins(e, h) && Serves(At(s, h), w, mark)
    ensures Serves(At(Apply(s, e), h), w, mark)
  {
    match e
    case BeginPoll(_, _) => case SwapStep(_) => case CasStep(_) => case Unlock(_) => case WakeStep(_) => case DropHandle(_) =>
  }

  /** A poll_lock that answers Pending has parked its own waker, from the moment it began. */
  lemma PollServes(r: Run<State, Step>, i: nat, k: nat, h: Handle, w: Waker)
    requires IsRun(IsInit, Next, r) && i < k < |r.states| && r.steps[i] == BeginPoll(h, w)
    requires forall j :: i < j < k ==> !Begins(r.steps[j], h)
    ensures Serves(At(r.states[k], h), w, |r.states[i].log|)
  {
    StepOf(r, i);
    var mark := |r.states[i].log|;
    var keep := (s: State) => Serves(At(s, h), w, mark);
    forall j | i + 1 <= j < k && keep(r.states[j]) ensures keep(r.states[j + 1]) {
      StepOf(r, j);
      ServesOneStep(r.states[j], r.steps[j], h, w, mark);
    }
    Persistence(keep, r, i + 1, k);
  }

  lemma ComesToIdle(s: State, e: Step, h: Handle)
    requires Enabled(s, e) && !Begins(e, h) && (At(s, h).pc.AtSwap? || At(s, h).pc.AtCas?)
    requires At(Apply(s, e), h).pc == Idle
    ensures e == CasStep(h) && s.word == One
  {
    match e
    case BeginPoll(_, _) => case SwapStep(_) => case CasStep(_) => case Unlock(_) => case WakeStep(_) => case DropHandle(_) =>
  }

  /** It answers Pending only if the other handle held the lock when it parked. */
  lemma PendingMeansTaken(r: Run<State, Step>, i: nat, k: nat, h: Handle, w: Waker) returns (n: nat)
    requires IsRun(IsInit, Next, r) && i < k < |r.states| && r.steps[i] == BeginPoll(h, w)
    requires forall j :: i < j < k ==> !Begins(r.steps[j], h)
    requires At(r.states[k], h).pc == Idle
    ensures i < n < k && r.steps[n] == CasStep(h) && At(r.states[n], Other(h)).pc == Holding
  {
    StepOf(r, i);
    n := Origin((s: State) => At(s, h).pc == Idle, r, i + 1, k);
    StepOf(r, n);
    PollServes(r, i, n, h, w);
    if At(r.states[n], h).pc == Holding {
      HeldUntilUnlocked(r, n, h);
    } else {
      ComesToIdle(r.states[n], r.steps[n], h);
    }
  }

  // ----- the object -----

  ghost predicate Reachable(s: State) { Reaches<State, Step>(IsInit, Next, s) }

  lemma Onwards(s: State, e: Step)
    requires Reachable(s) && Enabled(s, e)
    ensures Reachable(Apply(s, e))
  {
    NextReached<State, Step>(IsInit, Next, s, e, Apply(s, e));
  }

  lemma NeverStuck(s: State, h: Handle)
    requires Reachable(s)
    ensures At(s, h).pc.AtCas? ==> Enabled(s, CasStep(h))
    ensures At(s, h).pc.Holding? ==> Enabled(s, Unlock(h))
    ensures At(s, h).pc.Unlocked? ==> Enabled(s, WakeStep(h))
  {
    var r: Run<State, Step> :| IsRun(IsInit, Next, r) && r.states[|r.steps|] == s;
    NeverPanics(r, |r.steps|, h);
  }

  /** `Inner` with the positions of its two handles. */
  class Inner {
    var word: Word
    var pcs: map<Handle, Pc>
    var boxes: map<BoxId, Waker>
    var next: BoxId
    ghost var parked: map<Handle, Option<Suspended>>
    ghost var marks: map<Handle, nat>
    ghost var log: seq<Waker>

    ghost predicate Whole()
      reads this
    {
      Left in pcs && Right in pcs && Left in parked && Right in parked && Left in marks && Right in marks
    }

    ghost function View(): State
      requires Whole()
      reads this
    {
      State(word, Side(pcs[Left], parked[Left], marks[Left]), Side(pcs[Right], parked[Right], marks[Right]), boxes, next, log)
    }

    ghost predicate Valid()
      reads this
    {
      Whole() && Reachable(View())
    }

    constructor ()
      ensures Valid() && View() == Init
    {
      word, pcs, boxes, next := Null, map[Left := Idle, Right := Idle], map[], 0;
      parked, marks, log := map[Left := None, Right := None], map[Left := 0, Right := 0], [];
      new;
      StartReached<State, Step>(IsInit, Next, Init);
    }

    method PollLock(h: Handle, w: Waker)
      requires Valid() && Enabled(View(), BeginPoll(h, w))
      modifies this
      ensures Valid() && View() == DoBeginPoll(old(View()), h, w)
    {
      Onwards(View(), BeginPoll(h, w));
      pcs := pcs[h := AtSwap(w, None)];
      parked, marks := parked[h := None], marks[h := |log|];
    }

    /** `state.swap(invalid_ptr(1))`, and what follows up to the compare_exchange. */
    method Swap(h: Handle)
      requires Valid() && Enabled(View(), SwapStep(h))
      modifies this
      ensures Valid() && View() == DoSwap(old(View()), h)
    {
      Onwards(View(), SwapStep(h));
      var w, waker := pcs[h].w, pcs[h].held;
      var n := word;
      word := One;
      match n
      case Null =>
        boxes := Free(boxes, waker);
        pcs := pcs[h := Holding];
      case One =>
        if waker.Some? {
          pcs := pcs[h := AtCas(w, waker.value)];
        } else {
          boxes := boxes[next := w];
          pcs := pcs[h := AtCas(w, next)];
          next := next + 1;
        }
      case Boxed(b) =>
        boxes := Free(boxes, waker)[b := w];
        pcs := pcs[h := AtCas(w, b)];
    }

    /** `state.compare_exchange(invalid_ptr(1), me)`. */
    method CompareExchange(h: Handle) returns (pending: bool)
      requires Valid() && pcs[h].AtCas?
      modifies this
      ensures Valid() && Enabled(old(View()), CasStep(h)) && View() == DoCas(old(View()), h)
      ensures pending <==> old(word) == One
    {
      NeverStuck(View(), h);
      Onwards(View(), CasStep(h));
      var w, me := pcs[h].w, pcs[h].me;
      pending := word == One;
      if pending {
        word := Boxed(me);
        pcs := pcs[h := Idle];
        parked := parked[h := Some(Suspended(w, marks[h]))];
      } else {
        pcs := pcs[h := AtSwap(w, Some(me))];
      }
    }

    /** `unlock`, up to the wake-up. */
    method BeginUnlock(h: Handle)
      requires Valid() && pcs[h] == Holding
      modifies this
      ensures Valid() && Enabled(old(View()), Unlock(h)) && View() == DoUnlock(old(View()), h)
    {
      NeverStuck(View(), h);
      Onwards(View(), Unlock(h));
      var n := word;
      word := Null;
      match n
      case One => pcs := pcs[h := Idle];
      case Boxed(b) => pcs := pcs[h := Unlocked(b)];
    }

    method WakeParked(h: Handle)
      requires Valid() && pcs[h].Unlocked?
      modifies this
      ensures Valid() && Enabled(old(View()), WakeStep(h)) && View() == DoWake(old(View()), h)
    {
      NeverStuck(View(), h);
      Onwards(View(), WakeStep(h));
      var b := pcs[h].b;
      log := log + [boxes[b]];
      boxes := boxes - {b};
      pcs := pcs[h := Idle];
    }

    method DropOne(h: Handle)
      requires Valid() && Enabled(View(), DropHandle(h))
      modifies this
      ensures Valid() && View() == DoDropHandle(old(View()), h)
    {
      Onwards(View(), DropHandle(h));
      pcs := pcs[h := Gone];
    }
  }
}
