/** The two-bit lock of futures-core/src/task/__internal/atomic_waker.rs.

    `register` and `take`/`wake` are cut at their atomic operations.  Access to the waker
    cell is a step of its own, so that "only the lock holder touches the cell" is a
    statement about reachable states. */
module AtomicWakers {
  import opened Runs

  /** The two bits of `AtomicWaker::state`. */
  datatype Bits = Bits(registering: bool, waking: bool)

  const WAITING := Bits(false, false)
  const REGISTERING := Bits(true, false)
  const WAKING := Bits(false, true)
  const BOTH := Bits(true, true)

  /** Where a thread is inside `register` or `wake`; a thread in neither has no entry. */
  datatype Pc =
    | RegLocked(w: Waker)       // CAS(WAITING, REGISTERING) succeeded; the cell is to be written
    | RegStored(w: Waker)       // the cell holds w; the lock is to be released
    | RegTake(w: Waker)         // the release CAS failed; the waker is to be taken back
    | RegSwap(taken: Waker)     // taken back; `swap(WAITING)` comes next
    | RegWake(w: Waker)         // unlocked; the waker in hand is to be woken
    | RegSelf(w: Waker)         // found WAKING; wakes its own waker instead of registering
    | WakeLocked                // fetch_or(WAKING) found WAITING; the cell is to be emptied
    | WakeTaken(o: Option<Waker>)
    | WakeCall(o: Option<Waker>)

  /** The last `register` call whose CAS did not run into another `register`: a serial
      number, the calling thread, the waker, and the number of wake-ups that had happened
      when it began. */
  datatype Registration = Registration(id: nat, tid: Tid, w: Waker, mark: nat)

  datatype State = State(
    bits: Bits,
    cell: Option<Waker>,
    pc: map<Tid, Pc>,
    log: seq<Waker>,             // every Waker::wake performed so far
    last: Option<Registration>)

  datatype Step =
    | RegisterCas(t: Tid, w: Waker)
    | RegisterStore(t: Tid)
    | RegisterRelease(t: Tid)
    | RegisterTake(t: Tid)
    | RegisterSwap(t: Tid)
    | RegisterWake(t: Tid)
    | WakeFetchOr(t: Tid)
    | WakeTake(t: Tid)
    | WakeRelease(t: Tid)
    | WakeWaker(t: Tid)

  const Init := State(WAITING, None, map[], [], None)

  // ----- the atomic steps -----

  function NewRegistration(s: State, t: Tid, w: Waker): Registration {
    Registration(if s.last.Some? then s.last.value.id + 1 else 0, t, w, |s.log|)
  }

  function DoRegisterCas(s: State, t: Tid, w: Waker): State {
    if s.bits == WAITING then
      s.(bits := REGISTERING, pc := s.pc[t := RegLocked(w)], last := Some(NewRegistration(s, t, w)))
    else if s.bits == WAKING then
      s.(pc := s.pc[t := RegSelf(w)], last := Some(NewRegistration(s, t, w)))
    else
      s
  }

  function DoRegisterStore(s: State, t: Tid): State
    requires t in s.pc && s.pc[t].RegLocked?
  {
    s.(cell := Some(s.pc[t].w), pc := s.pc[t := RegStored(s.pc[t].w)])
  }

  function DoRegisterRelease(s: State, t: Tid): State
    requires t in s.pc && s.pc[t].RegStored?
  {
    if s.bits == REGISTERING then
      s.(bits := WAITING, pc := s.pc - {t})
    else
      s.(pc := s.pc[t := RegTake(s.pc[t].w)])
  }

  /** `(*self.waker.get()).take().unwrap()`: stuck when the cell is empty, which `Inv` excludes. */
  function DoRegisterTake(s: State, t: Tid): State
    requires t in s.pc && s.pc[t].RegTake? && s.cell.Some?
  {
    s.(cell := None, pc := s.pc[t := RegSwap(s.cell.value)])
  }

  function DoRegisterSwap(s: State, t: Tid): State
    requires t in s.pc && s.pc[t].RegSwap?
  {
    s.(bits := WAITING, pc := s.pc[t := RegWake(s.pc[t].taken)])
  }

  function DoRegisterWake(s: State, t: Tid): State
    requires t in s.pc && (s.pc[t].RegWake? || s.pc[t].RegSelf?)
  {
    s.(log := s.log + [s.pc[t].w], pc := s.pc - {t})
  }

  function DoWakeFetchOr(s: State, t: Tid): State {
    if s.bits == WAITING then
      s.(bits := WAKING, pc := s.pc[t := WakeLocked])
    else
      s.(bits := s.bits.(waking := true))
  }

  function DoWakeTake(s: State, t: Tid): State
    requires t in s.pc && s.pc[t].WakeLocked?
  {
    s.(cell := None, pc := s.pc[t := WakeTaken(s.cell)])
  }

  function DoWakeRelease(s: State, t: Tid): State
    requires t in s.pc && s.pc[t].WakeTaken?
  {
    s.(bits := WAITING, pc := s.pc[t := WakeCall(s.pc[t].o)])
  }

  function DoWakeWaker(s: State, t: Tid): State
    requires t in s.pc && s.pc[t].WakeCall?
  {
    var o := s.pc[t].o;
    s.(log := if o.Some? then s.log + [o.value] else s.log, pc := s.pc - {t})
  }

  predicate Enabled(s: State, e: Step) {
    match e
    case RegisterCas(t, w) => t !in s.pc
    case RegisterStore(t) => t in s.pc && s.pc[t].RegLocked?
    case RegisterRelease(t) => t in s.pc && s.pc[t].RegStored?
    case RegisterTake(t) => t in s.pc && s.pc[t].RegTake? && s.cell.Some?
    case RegisterSwap(t) => t in s.pc && s.pc[t].RegSwap?
    case RegisterWake(t) => t in s.pc && (s.pc[t].RegWake? || s.pc[t].RegSelf?)
    case WakeFetchOr(t) => t !in s.pc
    case WakeTake(t) => t in s.pc && s.pc[t].WakeLocked?
    case WakeRelease(t) => t in s.pc && s.pc[t].WakeTaken?
    case WakeWaker(t) => t in s.pc && s.pc[t].WakeCall?
  }

  function Apply(s: State, e: Step): State
    requires Enabled(s, e)
  {
    match e
    case RegisterCas(t, w) => DoRegisterCas(s, t, w)
    case RegisterStore(t) => DoRegisterStore(s, t)
    case RegisterRelease(t) => DoRegisterRelease(s, t)
    case RegisterTake(t) => DoRegisterTake(s, t)
    case RegisterSwap(t) => DoRegisterSwap(s, t)
    case RegisterWake(t) => DoRegisterWake(s, t)
    case WakeFetchOr(t) => DoWakeFetchOr(s, t)
    case WakeTake(t) => DoWakeTake(s, t)
    case WakeRelease(t) => DoWakeRelease(s, t)
    case WakeWaker(t) => DoWakeWaker(s, t)
  }

  ghost predicate IsInit(s: State) { s == Init }

  ghost predicate Next(s: State, e: Step, s': State) {
    Enabled(s, e) && s' == Apply(s, e)
  }

  // ----- the invariant -----

  /** The thread is inside `register` with the REGISTERING bit its own. */
  predicate HoldsRegister(p: Pc) { p.RegLocked? || p.RegStored? || p.RegTake? || p.RegSwap? }

  /** The thread moved the state from WAITING to WAKING and has not released it. */
  predicate HoldsWake(p: Pc) { p.WakeLocked? || p.WakeTaken? }

  predicate Holds(p: Pc) { HoldsRegister(p) || HoldsWake(p) }

  predicate InRegister(p: Pc) { HoldsRegister(p) || p.RegWake? || p.RegSelf? }

  ghost predicate AtMostOneHolder(s: State) {
    forall t, u :: t in s.pc && u in s.pc && Holds(s.pc[t]) && Holds(s.pc[u]) ==> t == u
  }

  /** What a thread's position says about the two bits and the cell. */
  ghost predicate Consistent(s: State, t: Tid)
    requires t in s.pc
  {
    var p := s.pc[t];
    && (HoldsRegister(p) ==> s.bits.registering && s.last.Some? && s.last.value.tid == t)
    && (HoldsWake(p) ==> s.bits == WAKING)
    && (p.RegStored? ==> s.cell == Some(p.w))
    && (p.RegTake? ==> s.bits == BOTH && s.cell == Some(p.w))
    && (p.RegSwap? ==> s.bits == BOTH)
    && (InRegister(p) && s.last.Some? && s.last.value.tid == t ==>
          (if p.RegSwap? then p.taken else p.w) == s.last.value.w)
  }

  /** `g`'s waker has been woken since `g` began, or a thread that holds the WAKING lock or
      already has the waker in hand is about to wake it. */
  ghost predicate Covered(s: State, g: Registration) {
    || WokenSince(s.log, g.mark, g.w)
    || (s.cell == Some(g.w) && exists t :: t in s.pc && s.pc[t] == WakeLocked)
    || (exists t :: t in s.pc && (s.pc[t] == WakeTaken(Some(g.w)) || s.pc[t] == WakeCall(Some(g.w))))
  }

  /** Covered, or in place for the next `wake`. */
  ghost predicate Armed(s: State, g: Registration) {
    Covered(s, g) || (s.bits == WAITING && s.cell == Some(g.w))
  }

  /** The call that made registration `g` has returned. */
  predicate Returned(s: State, g: Registration) {
    g.tid in s.pc ==> !InRegister(s.pc[g.tid])
  }

  ghost predicate Inv(s: State) {
    && AtMostOneHolder(s)
    && (s.bits != WAITING ==> exists t :: t in s.pc && Holds(s.pc[t]))
    && (forall t :: t in s.pc ==> Consistent(s, t))
    && (s.last.Some? ==>
          var g := s.last.value;
          && g.mark <= |s.log|
          && (Returned(s, g) ==> Armed(s, g)))
  }

  lemma KeepsRegisterCas(s: State, t: Tid, w: Waker)
    requires Inv(s) && t !in s.pc
    ensures Inv(DoRegisterCas(s, t, w))
  {
    var s' := DoRegisterCas(s, t, w);
    if s.bits == WAITING || s.bits == WAKING {
      assert t in s'.pc && InRegister(s'.pc[t]);
      if s.bits == WAKING {
        var u :| u in s.pc && Holds(s.pc[u]);
        assert s'.pc[u] == s.pc[u];
      }
    }
  }

  lemma KeepsRegisterOther(s: State, e: Step)
    requires Inv(s) && Enabled(s, e)
    requires e.RegisterStore? || e.RegisterRelease? || e.RegisterTake? || e.RegisterSwap?
    ensures Inv(Apply(s, e))
  {
    var s' := Apply(s, e);
    var t := e.t;
    assert Consistent(s, t);
    assert forall u :: u in s'.pc && u != t ==> u in s.pc && s'.pc[u] == s.pc[u] && !Holds(s.pc[u]);
    if Holds(s.pc[t]) && t in s'.pc && Holds(s'.pc[t]) { assert t in s'.pc && Holds(s'.pc[t]); }
    assert s.last.value.tid == t;
  }

  /** A `Waker::wake` call only adds to the log, and takes one thread off. */
  lemma CoveredAfterLog(s: State, s': State, t: Tid, g: Registration)
    requires t in s.pc && s'.pc == s.pc - {t} && s'.cell == s.cell && s.log <= s'.log
    requires !Holds(s.pc[t])
    requires s.pc[t] == WakeCall(Some(g.w)) ==> g.mark <= |s.log| && s'.log == s.log + [g.w]
    requires Covered(s, g)
    ensures Covered(s', g)
  {
    if WokenSince(s.log, g.mark, g.w) {
      assert s.log[g.mark..] <= s'.log[g.mark..];
    } else if u :| s.cell == Some(g.w) && u in s.pc && s.pc[u] == WakeLocked {
      assert u in s'.pc && s'.pc[u] == WakeLocked;
    } else {
      var u :| u in s.pc && (s.pc[u] == WakeTaken(Some(g.w)) || s.pc[u] == WakeCall(Some(g.w)));
      if u == t {
        assert s'.log[|s.log|] == g.w;
        assert s'.log[g.mark..][|s.log| - g.mark] == g.w;
      } else {
        assert u in s'.pc && s'.pc[u] == s.pc[u];
      }
    }
  }

  lemma KeepsWakeups(s: State, e: Step)
    requires Inv(s) && Enabled(s, e) && (e.RegisterWake? || e.WakeWaker?)
    ensures Inv(Apply(s, e))
  {
    var s' := Apply(s, e);
    var t := e.t;
    assert forall u :: u in s'.pc ==> u in s.pc && s'.pc[u] == s.pc[u];
    if s.bits != WAITING {
      var u :| u in s.pc && Holds(s.pc[u]);
      assert u in s'.pc && Holds(s'.pc[u]);
    }
    if s.last.Some? {
      var g := s.last.value;
      if Returned(s, g) {
        if Covered(s, g) { CoveredAfterLog(s, s', t, g); }
      } else if g.tid == t {
        assert s'.log[g.mark..][|s.log| - g.mark] == g.w;
      }
    }
    assert forall u :: u in s'.pc ==> Consistent(s, u) && Consistent(s', u);
  }

  predicate IsWakeStep(e: Step) { e.WakeFetchOr? || e.WakeTake? || e.WakeRelease? }

  lemma WakeStepCovers(s: State, e: Step, g: Registration)
    requires Inv(s) && Enabled(s, e) && IsWakeStep(e)
    ensures Covered(s, g) ==> Covered(Apply(s, e), g)
    ensures Armed(s, g) ==> Armed(Apply(s, e), g)
  {
    var s' := Apply(s, e);
    var t := e.t;
    if Covered(s, g) {
      if WokenSince(s.log, g.mark, g.w) {
      } else if u :| s.cell == Some(g.w) && u in s.pc && s.pc[u] == WakeLocked {
        assert Consistent(s, u);
        assert t in s.pc ==> Consistent(s, t);
        assert u in s'.pc;
      } else {
        var u :| u in s.pc && (s.pc[u] == WakeTaken(Some(g.w)) || s.pc[u] == WakeCall(Some(g.w)));
        assert u in s'.pc;
      }
    } else if Armed(s, g) && e.WakeFetchOr? {
      assert t in s'.pc && s'.pc[t] == WakeLocked;
    }
  }

  lemma KeepsWake(s: State, e: Step)
    requires Inv(s) && Enabled(s, e) && IsWakeStep(e)
    ensures Inv(Apply(s, e))
  {
    var s' := Apply(s, e);
    var t := e.t;
    assert t in s.pc ==> Consistent(s, t);
    assert forall u :: u in s.pc && u != t ==> u in s'.pc && s'.pc[u] == s.pc[u];
    if s.bits != WAITING && e.WakeFetchOr? {
      var u :| u in s.pc && Holds(s.pc[u]);
      assert u in s'.pc && Holds(s'.pc[u]);
    } else if s'.bits != WAITING {
      assert t in s'.pc && Holds(s'.pc[t]);
    }
    forall u | u in s'.pc ensures Consistent(s', u) {
      if u != t { assert Consistent(s, u); }
    }
    if s.last.Some? { WakeStepCovers(s, e, s.last.value); }
  }

  lemma KeepsInv(s: State, e: Step)
    requires Inv(s) && Enabled(s, e)
    ensures Inv(Apply(s, e))
  {
    match e
    case RegisterCas(t, w) => KeepsRegisterCas(s, t, w);
    case RegisterStore(_) => KeepsRegisterOther(s, e);
    case RegisterRelease(_) => KeepsRegisterOther(s, e);
    case RegisterTake(_) => KeepsRegisterOther(s, e);
    case RegisterSwap(_) => KeepsRegisterOther(s, e);
    case RegisterWake(_) => KeepsWakeups(s, e);
    case WakeWaker(_) => KeepsWakeups(s, e);
    case WakeFetchOr(_) => KeepsWake(s, e);
    case WakeTake(_) => KeepsWake(s, e);
    case WakeRelease(_) => KeepsWake(s, e);
  }

  // ----- what the source promises -----

  /** The unwrap of `register` and every state assertion of `register` and `take` hold. */
  lemma AssertionsHold(s: State, t: Tid)
    requires Inv(s) && t in s.pc
    // the compare_exchange that releases the registering lock fails only with REGISTERING | WAKING
    ensures s.pc[t].RegStored? ==> s.bits == REGISTERING || s.bits == BOTH
    // and then the waker is still in the cell
    ensures s.pc[t].RegTake? ==> s.cell == Some(s.pc[t].w) && s.bits == BOTH
    // the swap of `take` finds WAKING
    ensures s.pc[t].WakeTaken? ==> s.bits == WAKING
    // a thread that may touch the cell is the only one that may
    ensures Holds(s.pc[t]) ==> s.bits != WAITING && forall u :: u in s.pc && Holds(s.pc[u]) ==> u == t
  {
    assert Consistent(s, t);
  }

  /** The cell is written only by the thread that moved the state out of WAITING. */
  lemma OnlyHolderTouchesCell(s: State, e: Step)
    requires Inv(s) && Enabled(s, e) && Apply(s, e).cell != s.cell
    ensures e.t in s.pc && Holds(s.pc[e.t])
    ensures forall u :: u in s.pc && Holds(s.pc[u]) ==> u == e.t
  {
    assert Consistent(s, e.t);
  }

  /** `register` is dropped without effect only when another `register` is in progress. */
  lemma DroppedOnlyWhenRacing(s: State, t: Tid, w: Waker)
    requires Inv(s) && t !in s.pc
    requires DoRegisterCas(s, t, w) == s
    ensures exists u :: u != t && u in s.pc && HoldsRegister(s.pc[u])
  {
    assert s.bits != WAITING && s.bits != WAKING;
    var u :| u in s.pc && Holds(s.pc[u]);
    assert Consistent(s, u);
  }

  /** A `wake` that starts after the registering call returned leaves the registration covered. */
  lemma WakeCovers(s: State, t: Tid)
    requires Inv(s) && t !in s.pc && s.last.Some? && Returned(s, s.last.value)
    ensures Covered(DoWakeFetchOr(s, t), s.last.value)
  {
    var g := s.last.value;
    WakeStepCovers(s, WakeFetchOr(t), g);
    var s' := DoWakeFetchOr(s, t);
    if !Covered(s, g) { assert t in s'.pc && s'.pc[t] == WakeLocked && s'.cell == Some(g.w); }
  }

  predicate IsRegisterStep(e: Step) {
    e.RegisterCas? || e.RegisterStore? || e.RegisterRelease? || e.RegisterTake? || e.RegisterSwap?
  }

  /** A later `register`, whichever way it goes, leaves what is covered covered: it has the lock
      to itself only while no `wake` does, and touches nobody else's waker in hand. */
  lemma RegisterStepCovers(s: State, e: Step, g: Registration)
    requires Inv(s) && Enabled(s, e) && IsRegisterStep(e) && Covered(s, g)
    ensures Covered(Apply(s, e), g)
  {
    var s' := Apply(s, e);
    if WokenSince(s.log, g.mark, g.w) {
    } else if u :| s.cell == Some(g.w) && u in s.pc && s.pc[u] == WakeLocked {
      assert Holds(s.pc[u]);
      assert u in s'.pc && s'.pc[u] == WakeLocked;
    } else {
      var u :| u in s.pc && (s.pc[u] == WakeTaken(Some(g.w)) || s.pc[u] == WakeCall(Some(g.w)));
      assert u in s'.pc && s'.pc[u] == s.pc[u];
    }
  }

  /** Covered stays covered, through every step of every thread. */
  lemma KeepsCovered(s: State, e: Step, g: Registration)
    requires Inv(s) && Enabled(s, e) && Covered(s, g) && g.mark <= |s.log|
    ensures Covered(Apply(s, e), g) && g.mark <= |Apply(s, e).log|
  {
    if IsWakeStep(e) {
      WakeStepCovers(s, e, g);
    } else if IsRegisterStep(e) {
      RegisterStepCovers(s, e, g);
    } else {
      assert Consistent(s, e.t);
      CoveredAfterLog(s, Apply(s, e), e.t, g);
    }
  }

  /** The guarantee of `register`: g, the current registration, is that of a call of `register`
      with g's waker, and a `wake` that starts when that call has returned gets it woken.  In every later state, whatever
      is registered meanwhile, that has happened or a wake in progress is about to do it;
      so when no call is in progress any more, it has happened. */
  lemma {:induction false} WakeIsDelivered(r: Run<State, Step>, i: nat, j: nat, g: Registration)
    requires IsRun(IsInit, Next, r)
    requires i < j < |r.states|
    requires r.steps[i].WakeFetchOr?
    requires r.states[i].last == Some(g) && Returned(r.states[i], g)
    ensures exists n :: 0 <= n < i && r.steps[n] == RegisterCas(g.tid, g.w) && |r.states[n].log| == g.mark
    ensures Covered(r.states[j], g)
    ensures r.states[j].pc == map[] ==> WokenSince(r.states[j].log, g.mark, g.w)
  {
    RegistrationIsOf(r, i, g);
    CoveredUpTo(r, i, j, g);
  }

  /** A `register(w)` that is not dropped makes the registration of w, from the wake-ups so far on. */
  lemma RegisterIsNoted(s: State, t: Tid, w: Waker, s': State)
    requires Next(s, RegisterCas(t, w), s') && s' != s
    ensures s'.last.Some? && s'.last.value.tid == t && s'.last.value.w == w && s'.last.value.mark == |s.log|
  {
  }

  /** Every registration was made by a call of `register` with its waker. */
  lemma RegistrationIsOf(r: Run<State, Step>, k: nat, g: Registration)
    requires IsRun(IsInit, Next, r) && k < |r.states| && r.states[k].last == Some(g)
    ensures exists n :: 0 <= n < k && r.steps[n] == RegisterCas(g.tid, g.w) && |r.states[n].log| == g.mark
  {
    var n := Origin((s: State) => s.last == Some(g), r, 0, k);
    assert Next(r.states[n], r.steps[n], r.states[n + 1]);
    if !r.steps[n].RegisterCas? { LastStays(r.states[n], r.steps[n]); }
    assert r.steps[n] == RegisterCas(g.tid, g.w);
  }

  lemma {:induction false} CoveredUpTo(r: Run<State, Step>, i: nat, j: nat, g: Registration)
    requires IsRun(IsInit, Next, r)
    requires i < j < |r.states|
    requires r.steps[i].WakeFetchOr?
    requires r.states[i].last == Some(g) && Returned(r.states[i], g)
    ensures Covered(r.states[j], g) && g.mark <= |r.states[j].log|
    decreases j
  {
    InvInEveryState(r, j - 1);
    assert Next(r.states[j - 1], r.steps[j - 1], r.states[j - 1 + 1]);
    if j - 1 == i {
      WakeCovers(r.states[i], r.steps[i].t);
    } else {
      CoveredUpTo(r, i, j - 1, g);
      KeepsCovered(r.states[j - 1], r.steps[j - 1], g);
    }
  }

  lemma InvInEveryState(r: Run<State, Step>, k: nat)
    requires IsRun(IsInit, Next, r) && k < |r.states|
    ensures Inv(r.states[k])
  {
    forall s, e, s' | Inv(s) && Next(s, e, s') ensures Inv(s') {
      KeepsInv(s, e);
    }
    Invariance(IsInit, Next, Inv, r, k);
  }

  /** Only `register` makes a registration. */
  lemma LastStays(s: State, e: Step)
    requires Enabled(s, e) && !e.RegisterCas?
    ensures Apply(s, e).last == s.last
  {
    match e
    case RegisterStore(_) => case RegisterRelease(_) => case RegisterTake(_) => case RegisterSwap(_) => case RegisterWake(_) =>
    case WakeFetchOr(_) => case WakeTake(_) => case WakeRelease(_) => case WakeWaker(_) =>
  }

  /** So in every run no assertion of `register` or `take` fails, a lock holder is the only one,
      and no thread inside a call is stuck. */
  lemma NeverAsserts(r: Run<State, Step>, k: nat, t: Tid)
    requires IsRun(IsInit, Next, r) && k < |r.states| && t in r.states[k].pc
    ensures var s := r.states[k];
            && (s.pc[t].RegStored? ==> s.bits == REGISTERING || s.bits == BOTH)
            && (s.pc[t].RegTake? ==> s.cell == Some(s.pc[t].w) && s.bits == BOTH)
            && (s.pc[t].WakeTaken? ==> s.bits == WAKING)
            && (Holds(s.pc[t]) ==> forall u :: u in s.pc && Holds(s.pc[u]) ==> u == t)
            && Enabled(s, StepOf(s.pc[t], t))
  {
    InvInEveryState(r, k);
    AssertionsHold(r.states[k], t);
    StepIsEnabled(r.states[k], t);
  }

  /** `w.wake()` called by somebody who holds w himself, not through the cell. */
  function DirectWake(s: State, w: Waker): State { s.(log := s.log + [w]) }

  lemma KeepsDirectWake(s: State, w: Waker)
    requires Inv(s)
    ensures Inv(DirectWake(s, w))
    ensures forall g: Registration :: g.mark <= |s.log| && g.w == w ==> Covered(DirectWake(s, w), g)
    ensures forall g: Registration :: Covered(s, g) ==> Covered(DirectWake(s, w), g)
  {
    var s' := DirectWake(s, w);
    assert forall t :: t in s.pc ==> Consistent(s, t) && Consistent(s', t);
    forall g: Registration | g.mark <= |s.log| && g.w == w ensures Covered(s', g) {
      assert s'.log[g.mark..][|s.log| - g.mark] == w;
    }
    forall g: Registration | Covered(s, g) ensures Covered(s', g) {
      if WokenSince(s.log, g.mark, g.w) {
        assert s.log[g.mark..] <= s'.log[g.mark..];
      }
    }
  }

  /** The step that comes next for a thread inside `register` or `wake`. */
  function StepOf(p: Pc, t: Tid): Step {
    match p
    case RegLocked(_) => RegisterStore(t)
    case RegStored(_) => RegisterRelease(t)
    case RegTake(_) => RegisterTake(t)
    case RegSwap(_) => RegisterSwap(t)
    case RegWake(_) => RegisterWake(t)
    case RegSelf(_) => RegisterWake(t)
    case WakeLocked => WakeTake(t)
    case WakeTaken(_) => WakeRelease(t)
    case WakeCall(_) => WakeWaker(t)
  }

  /** A thread inside `register` or `wake` is never stuck. */
  lemma StepIsEnabled(s: State, t: Tid)
    requires Inv(s) && t in s.pc
    ensures Enabled(s, StepOf(s.pc[t], t))
  {
    AssertionsHold(s, t);
  }

  // ----- the object itself -----

  /** `AtomicWaker`: `state` and `waker` are its fields, `pc` the positions of the threads
      inside its methods; the log of wake-ups and the last registration are history. */
  class AtomicWaker {
    var state: Bits
    var waker: Option<Waker>
    var pc: map<Tid, Pc>
    ghost var log: seq<Waker>
    ghost var last: Option<Registration>

    ghost function View(): State
      reads this
    {
      State(state, waker, pc, log, last)
    }

    ghost predicate Valid()
      reads this
    {
      Inv(View())
    }

    constructor ()
      ensures View() == Init && Valid()
    {
      state, waker, pc := WAITING, None, map[];
      log, last := [], None;
    }

    /** `compare_exchange(WAITING, REGISTERING)` and the branch on its outcome. */
    method BeginRegister(t: Tid, w: Waker)
      requires Valid() && t !in pc
      modifies this
      ensures View() == DoRegisterCas(old(View()), t, w) && Valid()
    {
      KeepsRegisterCas(View(), t, w);
      if state == WAITING {
        state := REGISTERING;
        pc := pc[t := RegLocked(w)];
        last := Some(NewRegistration(old(View()), t, w));
      } else if state == WAKING {
        pc := pc[t := RegSelf(w)];
        last := Some(NewRegistration(old(View()), t, w));
      }
    }

    /** Updates the cell, keeping an old waker that wakes the same task. */
    method StoreWaker(t: Tid)
      requires Valid() && t in pc && pc[t].RegLocked?
      modifies this
      ensures View() == DoRegisterStore(old(View()), t) && Valid()
    {
      KeepsRegisterOther(View(), RegisterStore(t));
      var w := pc[t].w;
      if waker != Some(w) {
        waker := Some(w);
      }
      pc := pc[t := RegStored(w)];
    }

    /** `compare_exchange(REGISTERING, WAITING)`. */
    method ReleaseRegister(t: Tid)
      requires Valid() && t in pc && pc[t].RegStored?
      modifies this
      ensures View() == DoRegisterRelease(old(View()), t) && Valid()
    {
      KeepsRegisterOther(View(), RegisterRelease(t));
      if state == REGISTERING {
        state := WAITING;
        pc := pc - {t};
      } else {
        AssertionsHold(View(), t);
        assert state == BOTH;          // debug_assert_eq!(actual, REGISTERING | WAKING)
        pc := pc[t := RegTake(pc[t].w)];
      }
    }

    /** `take().unwrap()` after the release lost against a wake. */
    method TakeBack(t: Tid)
      requires Valid() && t in pc && pc[t].RegTake?
      modifies this
      ensures Valid() && old(waker).Some? && View() == DoRegisterTake(old(View()), t)
    {
      AssertionsHold(View(), t);
      KeepsRegisterOther(View(), RegisterTake(t));
      var w := waker.value;
      waker := None;
      pc := pc[t := RegSwap(w)];
    }

    method SwapAfterTakeBack(t: Tid)
      requires Valid() && t in pc && pc[t].RegSwap?
      modifies this
      ensures View() == DoRegisterSwap(old(View()), t) && Valid()
    {
      KeepsRegisterOther(View(), RegisterSwap(t));
      state := WAITING;
      pc := pc[t := RegWake(pc[t].taken)];
    }

    /** `waker.wake()` at the end of `register`, on either path that reaches it. */
    method WakeFromRegister(t: Tid)
      requires Valid() && t in pc && (pc[t].RegWake? || pc[t].RegSelf?)
      modifies this
      ensures View() == DoRegisterWake(old(View()), t) && Valid()
    {
      KeepsWakeups(View(), RegisterWake(t));
      log := log + [pc[t].w];
      pc := pc - {t};
    }

    /** `fetch_or(WAKING)` of `take`. */
    method BeginWake(t: Tid)
      requires Valid() && t !in pc
      modifies this
      ensures View() == DoWakeFetchOr(old(View()), t) && Valid()
    {
      KeepsWake(View(), WakeFetchOr(t));
      if state == WAITING {
        pc := pc[t := WakeLocked];
      }
      state := state.(waking := true);
    }

    method TakeWaker(t: Tid)
      requires Valid() && t in pc && pc[t].WakeLocked?
      modifies this
      ensures View() == DoWakeTake(old(View()), t) && Valid()
    {
      KeepsWake(View(), WakeTake(t));
      pc := pc[t := WakeTaken(waker)];
      waker := None;
    }

    method ReleaseWake(t: Tid)
      requires Valid() && t in pc && pc[t].WakeTaken?
      modifies this
      ensures View() == DoWakeRelease(old(View()), t) && Valid()
    {
      AssertionsHold(View(), t);
      assert state == WAKING;          // debug_assert!(old_state == WAKING)
      KeepsWake(View(), WakeRelease(t));
      state := WAITING;
      pc := pc[t := WakeCall(pc[t].o)];
    }

    method CallWaker(t: Tid)
      requires Valid() && t in pc && pc[t].WakeCall?
      modifies this
      ensures View() == DoWakeWaker(old(View()), t) && Valid()
    {
      KeepsWakeups(View(), WakeWaker(t));
      if pc[t].o.Some? {
        log := log + [pc[t].o.value];
      }
      pc := pc - {t};
    }

    /** A holder of w calls `w.wake()` itself; only the history notes it. */
    method NoteDirectWake(w: Waker)
      requires Valid()
      modifies this
      ensures View() == DirectWake(old(View()), w) && Valid()
    {
      KeepsDirectWake(View(), w);
      log := log + [w];
    }

    method GoOn(t: Tid)
      requires Valid() && t in pc
      modifies this
      ensures Valid()
      ensures Enabled(old(View()), StepOf(old(pc)[t], t)) && View() == Apply(old(View()), StepOf(old(pc)[t], t))
    {
      StepIsEnabled(View(), t);
      match pc[t]
      case RegLocked(_) => StoreWaker(t);
      case RegStored(_) => ReleaseRegister(t);
      case RegTake(_) => TakeBack(t);
      case RegSwap(_) => SwapAfterTakeBack(t);
      case RegWake(_) => WakeFromRegister(t);
      case RegSelf(_) => WakeFromRegister(t);
      case WakeLocked => TakeWaker(t);
      case WakeTaken(_) => ReleaseWake(t);
      case WakeCall(_) => CallWaker(t);
    }
  }
}
