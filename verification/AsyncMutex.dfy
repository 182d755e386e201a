/** futures-util/src/lock/mutex.rs: the two bits of `state`, the slab of waiters under a
    standard mutex, and the lock futures.

    Taking the slab's mutex and editing the slab is one step; where a bit of `state` is changed
    before the mutex is released, that is a second one, and the mutex stays held in between. */
module AsyncMutexes {
  import opened Runs

  type Key = nat

  datatype Waiter = Waiting(w: Waker) | Woken

  datatype FuturePc =
    | Rest                       // between two polls
    | Try1(w: Waker)             // poll: first try_lock
    | WantSlab(w: Waker)         // poll: to enter itself in the slab
    | SetBit                     // the slab was empty: sets HAS_WAITERS, holding the slab's mutex
    | Try2                       // poll: second try_lock
    | Removing(wakeAnother: bool)
    | ClearBit(acquired: bool)   // the slab is empty: clears HAS_WAITERS, holding the slab's mutex
    | Done                       // returned the guard
    | Dropped

  /** `MutexLockFuture`: its `wait_key`, and where it is in its methods. */
  datatype LockFuture = LockFuture(key: Option<Key>, pc: FuturePc)

  /** What is known of an entry: whose it is, the waker last put into it, and the number of
      wake-ups that had happened then. */
  datatype Entered = Entered(owner: Tid, waker: Waker, mark: nat)

  datatype State = State(
    locked: bool, hasWaiters: bool,       // IS_LOCKED and HAS_WAITERS
    slab: map<Key, Waiter>,
    entered: map<Key, Entered>,           // the history of each entry
    slabLock: Option<Tid>,
    futures: map<Tid, LockFuture>,
    guards: set<Tid>,                     // who holds a guard: a completed future, or a caller of try_lock
    waking: set<Tid>,                     // guards being dropped that have yet to wake a waiter
    log: seq<Waker>)                      // the wakers woken so far

  const Init := State(false, false, map[], map[], None, map[], {}, {}, [])

  ghost predicate IsInit(s: State) { s == Init }

  function Put(s: State, f: Tid, x: LockFuture): State { s.(futures := s.futures[f := x]) }

  function GoTo(s: State, f: Tid, pc: FuturePc): State
    requires f in s.futures
  {
    Put(s, f, s.futures[f].(pc := pc))
  }

  /** `Waiter::wake` on the entry k. */
  function Wake(s: State, k: Key): State
    requires k in s.slab
  {
    match s.slab[k]
    case Waiting(w) => s.(slab := s.slab[k := Woken], log := s.log + [w])
    case Woken => s
  }

  /** The entry `iter_mut().next()` yields: the occupied one with the lowest key. */
  predicate IsFirst(slab: map<Key, Waiter>, k: Key) { k in slab && forall j :: j in slab ==> k <= j }

  function DoTryLock(s: State, t: Tid): State {
    if s.locked then s else s.(locked := true, guards := s.guards + {t})
  }

  function DoNew(s: State, f: Tid): State { Put(s, f, LockFuture(None, Rest)) }

  function DoBeginPoll(s: State, f: Tid, w: Waker): State
    requires f in s.futures
  {
    GoTo(s, f, Try1(w))
  }

  function DoFirstTry(s: State, f: Tid): State
    requires f in s.futures && s.futures[f].pc.Try1?
  {
    if s.locked then GoTo(s, f, WantSlab(s.futures[f].pc.w))
    else GoTo(DoTryLock(s, f), f, if s.futures[f].key == None then Done else Removing(false))
  }

  /** Inserts a new entry at a vacant key k, or replaces the future's own. */
  function DoEditSlab(s: State, f: Tid, k: Key): State
    requires f in s.futures && s.futures[f].pc.WantSlab?
  {
    var w := s.futures[f].pc.w;
    var first := s.futures[f].key == None && s.slab == map[];
    Put(s, f, LockFuture(Some(k), if first then SetBit else Try2)).(
    slab := s.slab[k := Waiting(w)], entered := s.entered[k := Entered(f, w, |s.log|)], slabLock := if first then Some(f) else None)
  }

  function DoSetBit(s: State, f: Tid): State
    requires f in s.futures
  {
    GoTo(s, f, Try2).(hasWaiters := true, slabLock := None)
  }

  function DoSecondTry(s: State, f: Tid): State
    requires f in s.futures
  {
    if s.locked then GoTo(s, f, Rest) else GoTo(DoTryLock(s, f), f, Removing(false))
  }

  /** Dropping the future before it acquired the lock. */
  function DoBeginDrop(s: State, f: Tid): State
    requires f in s.futures
  {
    GoTo(s, f, if s.futures[f].key == None then Dropped else Removing(true))
  }

  /** `remove_waker`: a future that was woken for nothing passes the wake-up on to entry k. */
  function DoRemove(s: State, f: Tid, k: Key): State
    requires f in s.futures && s.futures[f].pc.Removing? && s.futures[f].key.Some? && s.futures[f].key.value in s.slab
    requires s.slab - {s.futures[f].key.value} != map[] ==> IsFirst(s.slab - {s.futures[f].key.value}, k)
  {
    var own, wakeAnother := s.futures[f].key.value, s.futures[f].pc.wakeAnother;
    var s' := s.(slab := s.slab - {own}, entered := s.entered - {own});
    if s'.slab == map[] then
      Put(s', f, s.futures[f].(key := None, pc := ClearBit(!wakeAnother))).(slabLock := Some(f))
    else
      Put(if s.slab[own].Woken? && wakeAnother then Wake(s', k) else s', f,
          s.futures[f].(key := None, pc := if wakeAnother then Dropped else Done))
  }

  function DoClearBit(s: State, f: Tid): State
    requires f in s.futures && s.futures[f].pc.ClearBit?
  {
    GoTo(s, f, if s.futures[f].pc.acquired then Done else Dropped).(hasWaiters := false, slabLock := None)
  }

  /** `unlock`: `fetch_and(!IS_LOCKED)`. */
  function DoUnlock(s: State, t: Tid): State {
    s.(locked := false, guards := s.guards - {t}, waking := if s.hasWaiters then s.waking + {t} else s.waking)
  }

  /** `unlock` after it saw HAS_WAITERS. */
  function DoWakeFirst(s: State, t: Tid, k: Key): State
    requires s.slab != map[] ==> IsFirst(s.slab, k)
  {
    (if s.slab == map[] then s else Wake(s, k)).(waking := s.waking - {t})
  }

  datatype Step =
    | TryLock(t: Tid) | New(t: Tid) | BeginPoll(t: Tid, w: Waker) | FirstTry(t: Tid) | EditSlab(t: Tid, k: Key)
    | SetBitStep(t: Tid) | SecondTry(t: Tid) | BeginDrop(t: Tid) | Remove(t: Tid, k: Key) | ClearBitStep(t: Tid)
    | Unlock(t: Tid) | WakeFirst(t: Tid, k: Key)

  predicate At(s: State, f: Tid, pc: FuturePc) { f in s.futures && s.futures[f].pc == pc }

  predicate Enabled(s: State, e: Step) {
    var t := e.t;
    match e
    case TryLock(_) => t !in s.futures && t !in s.guards
    case New(_) => t !in s.futures && t !in s.guards
    case BeginPoll(_, _) => At(s, t, Rest)
    case FirstTry(_) => t in s.futures && s.futures[t].pc.Try1?
    case EditSlab(_, k) =>
      t in s.futures && s.futures[t].pc.WantSlab? && s.slabLock == None
      && (if s.futures[t].key.Some? then k == s.futures[t].key.value else k !in s.slab)
    case SetBitStep(_) => At(s, t, SetBit)
    case SecondTry(_) => At(s, t, Try2)
    case BeginDrop(_) => At(s, t, Rest)
    case Remove(_, k) =>
      t in s.futures && s.futures[t].pc.Removing? && s.slabLock == None
      && s.futures[t].key.Some? && s.futures[t].key.value in s.slab
      && (s.slab - {s.futures[t].key.value} != map[] ==> IsFirst(s.slab - {s.futures[t].key.value}, k))
    case ClearBitStep(_) => t in s.futures && s.futures[t].pc.ClearBit?
    case Unlock(_) => t in s.guards && (t in s.futures ==> s.futures[t].pc == Done)
    case WakeFirst(_, k) => t in s.waking && s.slabLock == None && (s.slab != map[] ==> IsFirst(s.slab, k))
  }

  function Apply(s: State, e: Step): State
    requires Enabled(s, e)
  {
    match e
    case TryLock(t) => DoTryLock(s, t)
    case New(t) => DoNew(s, t)
    case BeginPoll(t, w) => DoBeginPoll(s, t, w)
    case FirstTry(t) => DoFirstTry(s, t)
    case EditSlab(t, k) => DoEditSlab(s, t, k)
    case SetBitStep(t) => DoSetBit(s, t)
    case SecondTry(t) => DoSecondTry(s, t)
    case BeginDrop(t) => DoBeginDrop(s, t)
    case Remove(t, k) => DoRemove(s, t, k)
    case ClearBitStep(t) => DoClearBit(s, t)
    case Unlock(t) => DoUnlock(s, t)
    case WakeFirst(t, k) => DoWakeFirst(s, t, k)
  }

  ghost predicate Next(s: State, e: Step, s': State) { Enabled(s, e) && s' == Apply(s, e) }

  // ----- the invariant -----

  /** The entry holds the waker last put into it, or that waker has been woken since. */
  predicate EntryOk(x: Entered, entry: Waiter, log: seq<Waker>) {
    && x.mark <= |log|
    && match entry
       case Waiting(w) => w == x.waker
       case Woken => WokenSince(log, x.mark, x.waker)
  }

  ghost predicate EntriesOk(entered: map<Key, Entered>, slab: map<Key, Waiter>, log: seq<Waker>) {
    entered.Keys == slab.Keys && forall k :: k in slab ==> EntryOk(entered[k], slab[k], log)
  }

  predicate HasLock(pc: FuturePc) { pc == Removing(false) || pc == ClearBit(true) }

  predicate FutureOk(x: LockFuture, guarded: bool) {
    && (x.pc.SetBit? || x.pc.Try2? || x.pc.Removing? ==> x.key.Some?)
    && (x.pc.ClearBit? || x.pc.Done? || x.pc.Dropped? ==> x.key == None)
    && (HasLock(x.pc) ==> guarded)
    && (guarded ==> HasLock(x.pc) || x.pc.Done?)
  }

  ghost predicate FuturesOk(futures: map<Tid, LockFuture>, guards: set<Tid>) {
    forall f :: f in futures ==> FutureOk(futures[f], f in guards)
  }

  /** Every entry belongs to the one future that has its key. */
  ghost predicate KeysOk(entered: map<Key, Entered>, futures: map<Tid, LockFuture>) {
    && (forall f :: f in futures && futures[f].key.Some? ==>
          futures[f].key.value in entered && entered[futures[f].key.value].owner == f)
    && (forall k :: k in entered ==> entered[k].owner in futures && futures[entered[k].owner].key == Some(k))
  }

  /** HAS_WAITERS tells whether the slab is empty, except while its mutex is held to say so. */
  ghost predicate BitOk(hasWaiters: bool, empty: bool, slabLock: Option<Tid>, futures: map<Tid, LockFuture>) {
    && (match slabLock
        case None => hasWaiters == !empty
        case Some(f) => f in futures && (if empty then futures[f].pc.ClearBit? else futures[f].pc.SetBit?) && hasWaiters == empty)
    && (forall f :: f in futures && HoldsSlab(futures[f].pc) ==> slabLock == Some(f))
  }

  /** The future holds the slab's mutex between two steps. */
  predicate HoldsSlab(pc: FuturePc) { pc.SetBit? || pc.ClearBit? }

  ghost predicate LockOk(locked: bool, guards: set<Tid>) {
    (locked <==> guards != {}) && forall t, u :: t in guards && u in guards ==> t == u
  }

  /** A future that has (re-)entered itself and not yet tried the lock again. */
  predicate WillTry(pc: FuturePc) { pc.SetBit? || pc.Try2? }

  /** Somebody is on the way to take the lock, or to wake somebody who will. */
  ghost predicate Attended(s: State) {
    || (exists k :: k in s.slab && s.slab[k] == Woken)
    || s.waking != {}
    || (exists f :: f in s.futures && WillTry(s.futures[f].pc))
  }

  ghost predicate AttendedOk(s: State) { !s.locked && s.slab != map[] ==> Attended(s) }

  ghost predicate Inv(s: State) {
    && EntriesOk(s.entered, s.slab, s.log) && KeysOk(s.entered, s.futures) && FuturesOk(s.futures, s.guards)
    && BitOk(s.hasWaiters, s.slab == map[], s.slabLock, s.futures) && LockOk(s.locked, s.guards) && AttendedOk(s)
  }

  // ----- every step keeps it -----

  /** Waking an entry keeps the account of every one. */
  lemma WakeKeepsEntries(s: State, k: Key)
    requires k in s.slab && EntriesOk(s.entered, s.slab, s.log)
    ensures EntriesOk(s.entered, Wake(s, k).slab, Wake(s, k).log)
  {
    var s' := Wake(s, k);
    forall j | j in s.slab ensures EntryOk(s.entered[j], s'.slab[j], s'.log) {
      var x := s.entered[j];
      assert EntryOk(x, s.slab[j], s.log);
      if s.slab[k].Waiting? && (j == k || s.slab[j].Woken?) { WokenStays(s.log, x.mark, x.waker, s.slab[k].w); }
    }
  }

  lemma WakeAttends(s: State, k: Key)
    requires k in s.slab
    ensures Wake(s, k).slab.Keys == s.slab.Keys && Wake(s, k).slab[k] == Woken
    ensures Attended(Wake(s, k))
  {
  }

  lemma FuturesPut(futures: map<Tid, LockFuture>, guards: set<Tid>, guards': set<Tid>, f: Tid, x: LockFuture)
    requires FuturesOk(futures, guards) && guards - {f} == guards' - {f} && FutureOk(x, f in guards')
    ensures FuturesOk(futures[f := x], guards')
  {
    forall g | g in futures && g != f ensures FutureOk(futures[g], g in guards') {
      assert g in guards' <==> g in guards' - {f};
      assert g in guards <==> g in guards - {f};
    }
  }

  lemma KeysPut(entered: map<Key, Entered>, futures: map<Tid, LockFuture>, f: Tid, x: LockFuture)
    requires KeysOk(entered, futures) && x.key == if f in futures then futures[f].key else None
    ensures KeysOk(entered, futures[f := x])
  {
  }

  lemma BitPut(hasWaiters: bool, empty: bool, slabLock: Option<Tid>, futures: map<Tid, LockFuture>, f: Tid, x: LockFuture)
    requires BitOk(hasWaiters, empty, slabLock, futures)
    requires !HoldsSlab(x.pc) && (f in futures ==> !HoldsSlab(futures[f].pc))
    ensures BitOk(hasWaiters, empty, slabLock, futures[f := x])
  {
  }

  lemma AttendedPut(s: State, s': State, f: Tid)
    requires AttendedOk(s) && s'.slab == s.slab && s'.waking == s.waking && (!s'.locked ==> !s.locked)
    requires f in s'.futures && s'.futures == s.futures[f := s'.futures[f]]
    requires f in s.futures && WillTry(s.futures[f].pc) ==> s'.locked || WillTry(s'.futures[f].pc)
    ensures AttendedOk(s')
  {
    if !s'.locked && s'.slab != map[] {
      if g :| g in s.futures && WillTry(s.futures[g].pc) {
        assert g in s'.futures && WillTry(s'.futures[g].pc);
      }
    }
  }

  lemma KeepsTryLock(s: State, t: Tid)
    requires Inv(s) && Enabled(s, TryLock(t))
    ensures Inv(DoTryLock(s, t))
  {
  }

  lemma KeepsNew(s: State, f: Tid)
    requires Inv(s) && Enabled(s, New(f))
    ensures Inv(DoNew(s, f))
  {
    var s' := DoNew(s, f);
    FuturesPut(s.futures, s.guards, s.guards, f, s'.futures[f]);
    KeysPut(s.entered, s.futures, f, s'.futures[f]);
    BitPut(s.hasWaiters, s.slab == map[], s.slabLock, s.futures, f, s'.futures[f]);
    AttendedPut(s, s', f);
  }

  lemma KeepsBegin(s: State, e: Step)
    requires Inv(s) && Enabled(s, e) && (e.BeginPoll? || e.BeginDrop?)
    ensures Inv(Apply(s, e))
  {
    var s' := Apply(s, e);
    var x' := s'.futures[e.t];
    assert FutureOk(s.futures[e.t], e.t in s.guards);
    FuturesPut(s.futures, s.guards, s.guards, e.t, x');
    KeysPut(s.entered, s.futures, e.t, x');
    BitPut(s.hasWaiters, s.slab == map[], s.slabLock, s.futures, e.t, x');
    AttendedPut(s, s', e.t);
  }

  lemma KeepsFirstTry(s: State, f: Tid)
    requires Inv(s) && Enabled(s, FirstTry(f))
    ensures Inv(DoFirstTry(s, f))
  {
    var s' := DoFirstTry(s, f);
    var x' := s'.futures[f];
    assert FutureOk(s.futures[f], f in s.guards);
    FuturesPut(s.futures, s.guards, s'.guards, f, x');
    KeysPut(s.entered, s.futures, f, x');
    BitPut(s.hasWaiters, s.slab == map[], s.slabLock, s.futures, f, x');
    AttendedPut(s, s', f);
    assert s'.futures == s.futures[f := x'];
  }

  lemma KeepsSecondTry(s: State, f: Tid)
    requires Inv(s) && Enabled(s, SecondTry(f))
    ensures Inv(DoSecondTry(s, f))
  {
    var s' := DoSecondTry(s, f);
    var x' := s'.futures[f];
    assert FutureOk(s.futures[f], f in s.guards);
    FuturesPut(s.futures, s.guards, s'.guards, f, x');
    KeysPut(s.entered, s.futures, f, x');
    BitPut(s.hasWaiters, s.slab == map[], s.slabLock, s.futures, f, x');
    AttendedPut(s, s', f);
    assert s'.futures == s.futures[f := x'];
  }

  lemma KeepsBits(s: State, e: Step)
    requires Inv(s) && Enabled(s, e) && (e.SetBitStep? || e.ClearBitStep?)
    ensures Inv(Apply(s, e))
  {
    var s' := Apply(s, e);
    var x' := s'.futures[e.t];
    assert FutureOk(s.futures[e.t], e.t in s.guards);
    FuturesPut(s.futures, s.guards, s.guards, e.t, x');
    KeysPut(s.entered, s.futures, e.t, x');
    AttendedPut(s, s', e.t);
  }

  lemma KeepsUnlock(s: State, t: Tid)
    requires Inv(s) && Enabled(s, Unlock(t))
    ensures Inv(DoUnlock(s, t))
  {
    var s' := DoUnlock(s, t);
    if s'.slab != map[] {
      if s.hasWaiters {
        assert t in s'.waking;
      } else {
        var f := s.slabLock.value;
        assert f in s'.futures && WillTry(s'.futures[f].pc);
      }
    }
  }

  lemma KeepsWakeFirst(s: State, t: Tid, k: Key)
    requires Inv(s) && Enabled(s, WakeFirst(t, k))
    ensures Inv(DoWakeFirst(s, t, k))
  {
    if s.slab != map[] {
      WakeKeepsEntries(s, k);
      WakeAttends(s, k);
      assert k in Wake(s, k).slab;
    }
  }

  // ----- entering the slab -----

  lemma EditKeepsKeys(entered: map<Key, Entered>, futures: map<Tid, LockFuture>, f: Tid, x: LockFuture, k: Key, e: Entered)
    requires KeysOk(entered, futures) && f in futures && x.key == Some(k) && e.owner == f
    requires if futures[f].key.Some? then futures[f].key == Some(k) else k !in entered
    ensures KeysOk(entered[k := e], futures[f := x])
  {
  }

  lemma EditParts(s: State, f: Tid, k: Key)
    requires EntriesOk(s.entered, s.slab, s.log) && KeysOk(s.entered, s.futures) && FuturesOk(s.futures, s.guards)
    requires Enabled(s, EditSlab(f, k))
    ensures var s' := DoEditSlab(s, f, k);
            EntriesOk(s'.entered, s'.slab, s'.log) && KeysOk(s'.entered, s'.futures) && FuturesOk(s'.futures, s'.guards)
  {
    var s' := DoEditSlab(s, f, k);
    assert FutureOk(s.futures[f], f in s.guards);
    FuturesPut(s.futures, s.guards, s.guards, f, s'.futures[f]);
    EditKeepsKeys(s.entered, s.futures, f, s'.futures[f], k, s'.entered[k]);
  }

  lemma EditSetsBit(s: State, f: Tid, k: Key)
    requires BitOk(s.hasWaiters, s.slab == map[], s.slabLock, s.futures) && Enabled(s, EditSlab(f, k))
    requires s.futures[f].key.Some? ==> s.slab != map[]
    ensures var s' := DoEditSlab(s, f, k); BitOk(s'.hasWaiters, false, s'.slabLock, s'.futures) && k in s'.slab
  {
  }

  lemma KeepsEdit(s: State, f: Tid, k: Key)
    requires Inv(s) && Enabled(s, EditSlab(f, k))
    ensures Inv(DoEditSlab(s, f, k))
  {
    var s' := DoEditSlab(s, f, k);
    EditParts(s, f, k);
    EditSetsBit(s, f, k);
    assert f in s'.futures && WillTry(s'.futures[f].pc);
  }

  // ----- leaving the slab -----

  /** The slab without the entry of f, and f without its key. */
  function Removed(s: State, f: Tid, pc: FuturePc): State
    requires f in s.futures && s.futures[f].key.Some?
  {
    Put(s, f, s.futures[f].(key := None, pc := pc)).(
    slab := s.slab - {s.futures[f].key.value}, entered := s.entered - {s.futures[f].key.value})
  }

  lemma RemovedKeepsKeys(entered: map<Key, Entered>, futures: map<Tid, LockFuture>, f: Tid, x: LockFuture)
    requires KeysOk(entered, futures) && f in futures && futures[f].key.Some? && x.key == None
    ensures KeysOk(entered - {futures[f].key.value}, futures[f := x])
  {
  }

  lemma KeepsRemoveLast(s: State, f: Tid, k: Key)
    requires Inv(s) && Enabled(s, Remove(f, k)) && s.slab - {s.futures[f].key.value} == map[]
    ensures Inv(DoRemove(s, f, k))
  {
    var pc := ClearBit(!s.futures[f].pc.wakeAnother);
    var s1 := Removed(s, f, pc);
    assert FutureOk(s.futures[f], f in s.guards);
    RemovedParts(s, f, pc);
    assert DoRemove(s, f, k) == s1.(slabLock := Some(f));
  }

  /** What attends to the waiters does so without f, unless f passes its wake-up on. */
  lemma RemoveAttended(s: State, f: Tid, k: Key)
    requires FuturesOk(s.futures, s.guards) && LockOk(s.locked, s.guards) && AttendedOk(s) && Enabled(s, Remove(f, k))
    requires s.slab - {s.futures[f].key.value} != map[]
    ensures AttendedOk(DoRemove(s, f, k))
  {
    var s', own := DoRemove(s, f, k), s.futures[f].key.value;
    if !s.locked {
      assert FutureOk(s.futures[f], f in s.guards);
      var rest := s.(slab := s.slab - {own}, entered := s.entered - {own});
      if s.slab[own] == Woken {
        WakeAttends(rest, k);
        assert s'.slab[k] == Woken;
      } else if j :| j in s.slab && s.slab[j] == Woken {
        assert s'.slab[j] == Woken;
      } else if g :| g in s.futures && WillTry(s.futures[g].pc) {
        assert g in s'.futures && WillTry(s'.futures[g].pc);
      }
    }
  }

  lemma RemovedParts(s: State, f: Tid, pc: FuturePc)
    requires EntriesOk(s.entered, s.slab, s.log) && KeysOk(s.entered, s.futures) && FuturesOk(s.futures, s.guards)
    requires f in s.futures && s.futures[f].key.Some? && FutureOk(LockFuture(None, pc), f in s.guards)
    ensures var s1 := Removed(s, f, pc);
            FuturesOk(s1.futures, s1.guards) && KeysOk(s1.entered, s1.futures) && EntriesOk(s1.entered, s1.slab, s1.log)
  {
    FuturesPut(s.futures, s.guards, s.guards, f, LockFuture(None, pc));
    RemovedKeepsKeys(s.entered, s.futures, f, LockFuture(None, pc));
  }

  function WakeIf(b: bool, s: State, k: Key): State
    requires k in s.slab
  {
    if b then Wake(s, k) else s
  }

  lemma WakeIfParts(b: bool, s: State, k: Key)
    requires k in s.slab && EntriesOk(s.entered, s.slab, s.log)
    ensures var s' := WakeIf(b, s, k);
            && EntriesOk(s'.entered, s'.slab, s'.log) && k in s'.slab
            && s'.futures == s.futures && s'.entered == s.entered && s'.guards == s.guards
  {
    WakeKeepsEntries(s, k);
    WakeAttends(s, k);
  }

  /** `remove_waker` that leaves other entries: off the slab, then perhaps a wake-up. */
  lemma RemoveInTwo(s: State, f: Tid, k: Key)
    requires Enabled(s, Remove(f, k)) && s.slab - {s.futures[f].key.value} != map[]
    ensures var s1 := Removed(s, f, if s.futures[f].pc.wakeAnother then Dropped else Done);
            && k in s1.slab
            && DoRemove(s, f, k) == WakeIf(s.slab[s.futures[f].key.value].Woken? && s.futures[f].pc.wakeAnother, s1, k)
  {
  }

  lemma RemoveOneParts(s: State, f: Tid, k: Key)
    requires EntriesOk(s.entered, s.slab, s.log) && KeysOk(s.entered, s.futures) && FuturesOk(s.futures, s.guards)
    requires Enabled(s, Remove(f, k)) && s.slab - {s.futures[f].key.value} != map[]
    ensures var s' := DoRemove(s, f, k);
            && FuturesOk(s'.futures, s'.guards) && KeysOk(s'.entered, s'.futures)
            && EntriesOk(s'.entered, s'.slab, s'.log) && k in s'.slab
  {
    var pc := if s.futures[f].pc.wakeAnother then Dropped else Done;
    assert FutureOk(s.futures[f], f in s.guards);
    RemovedParts(s, f, pc);
    RemoveInTwo(s, f, k);
    WakeIfParts(s.slab[s.futures[f].key.value].Woken? && s.futures[f].pc.wakeAnother, Removed(s, f, pc), k);
  }

  lemma RemoveLeavesBit(s: State, f: Tid, k: Key)
    requires BitOk(s.hasWaiters, s.slab == map[], s.slabLock, s.futures)
    requires Enabled(s, Remove(f, k)) && s.slab - {s.futures[f].key.value} != map[]
    ensures var s' := DoRemove(s, f, k); BitOk(s'.hasWaiters, false, s'.slabLock, s'.futures)
    ensures DoRemove(s, f, k).locked == s.locked && DoRemove(s, f, k).guards == s.guards
  {
  }

  lemma KeepsRemoveOne(s: State, f: Tid, k: Key)
    requires Inv(s) && Enabled(s, Remove(f, k)) && s.slab - {s.futures[f].key.value} != map[]
    ensures Inv(DoRemove(s, f, k))
  {
    RemoveAttended(s, f, k);
    RemoveOneParts(s, f, k);
    RemoveLeavesBit(s, f, k);
  }

  lemma KeepsInv(s: State, e: Step)
    requires Inv(s) && Enabled(s, e)
    ensures Inv(Apply(s, e))
  {
    match e
    case TryLock(t) => KeepsTryLock(s, t);
    case New(t) => KeepsNew(s, t);
    case BeginPoll(_, _) => KeepsBegin(s, e);
    case BeginDrop(_) => KeepsBegin(s, e);
    case FirstTry(t) => KeepsFirstTry(s, t);
    case SecondTry(t) => KeepsSecondTry(s, t);
    case SetBitStep(_) => KeepsBits(s, e);
    case ClearBitStep(_) => KeepsBits(s, e);
    case EditSlab(t, k) => KeepsEdit(s, t, k);
    case Remove(t, k) =>
      if s.slab - {s.futures[t].key.value} == map[] { KeepsRemoveLast(s, t, k); } else { KeepsRemoveOne(s, t, k); }
    case Unlock(t) => KeepsUnlock(s, t);
    case WakeFirst(t, k) => KeepsWakeFirst(s, t, k);
  }

  lemma InvInEveryState(r: Run<State, Step>, k: nat)
    requires IsRun(IsInit, Next, r) && k < |r.states|
    ensures Inv(r.states[k])
  {
    forall s, e, s' | Inv(s) && Next(s, e, s') ensures Inv(s') { KeepsInv(s, e); }
    Invariance(IsInit, Next, Inv, r, k);
  }

  // ----- what the source promises -----

  /** At most one guard exists, and it exists exactly while IS_LOCKED is set. */
  lemma AtMostOneGuard(r: Run<State, Step>, k: nat)
    requires IsRun(IsInit, Next, r) && k < |r.states|
    ensures var s := r.states[k]; (s.locked <==> |s.guards| == 1) && |s.guards| <= 1
  {
    InvInEveryState(r, k);
    var s := r.states[k];
    if t :| t in s.guards { assert s.guards == {t}; }
  }

  /** While nobody holds the slab's mutex, HAS_WAITERS says whether the slab is empty. */
  lemma BitMatchesSlab(r: Run<State, Step>, k: nat)
    requires IsRun(IsInit, Next, r) && k < |r.states| && r.states[k].slabLock == None
    ensures r.states[k].hasWaiters <==> r.states[k].slab != map[]
  {
    InvInEveryState(r, k);
  }

  /** A future's key is that of an occupied entry whenever it is used, and of no other future's. */
  lemma KeysAreValid(r: Run<State, Step>, k: nat, f: Tid, g: Tid)
    requires IsRun(IsInit, Next, r) && k < |r.states| && f in r.states[k].futures
    ensures var s := r.states[k];
            && (s.futures[f].pc.Removing? ==> s.futures[f].key.Some?)
            && (s.futures[f].key.Some? ==> s.futures[f].key.value in s.slab)
            && (s.futures[f].key.Some? && g in s.futures && g != f ==> s.futures[g].key != s.futures[f].key)
  {
    InvInEveryState(r, k);
    var s := r.states[k];
    assert FutureOk(s.futures[f], f in s.guards);
  }

  /** A future whose last poll returned Pending is in the slab under that poll's waker, unless
      that waker has been woken since. */
  lemma PendingIsEntered(r: Run<State, Step>, k: nat, f: Tid)
    requires IsRun(IsInit, Next, r) && k < |r.states|
    requires At(r.states[k], f, Rest) && r.states[k].futures[f].key.Some?
    ensures var s, key := r.states[k], r.states[k].futures[f].key.value;
            && key in s.slab && key in s.entered && s.entered[key].owner == f
            && (s.slab[key] == Waiting(s.entered[key].waker) || WokenSince(s.log, s.entered[key].mark, s.entered[key].waker))
  {
    InvInEveryState(r, k);
    var s := r.states[k];
    var key := s.futures[f].key.value;
    assert EntryOk(s.entered[key], s.slab[key], s.log);
  }

  /** Waiters are never stranded: while the lock is free and the slab is not empty, an entry is
      woken, or an unlock has yet to wake one, or a future has yet to try the lock again. */
  lemma NeverStranded(r: Run<State, Step>, k: nat)
    requires IsRun(IsInit, Next, r) && k < |r.states|
    requires !r.states[k].locked && r.states[k].slab != map[]
    ensures Attended(r.states[k])
  {
    InvInEveryState(r, k);
  }

  predicate Quiet(s: State) {
    s.waking == {} && forall f :: f in s.futures ==> s.futures[f].pc.Rest? || s.futures[f].pc.Done? || s.futures[f].pc.Dropped?
  }

  /** In particular, when nobody is inside a call: if a future waits and the lock is free, some
      waiting future has been woken since it entered its waker. */
  lemma SomeWaiterIsWoken(r: Run<State, Step>, k: nat, f: Tid)
    requires IsRun(IsInit, Next, r) && k < |r.states| && Quiet(r.states[k])
    requires !r.states[k].locked && f in r.states[k].futures && r.states[k].futures[f].key.Some?
    ensures exists j :: var s := r.states[k];
              && j in s.entered && At(s, s.entered[j].owner, Rest) && s.futures[s.entered[j].owner].key == Some(j)
              && WokenSince(s.log, s.entered[j].mark, s.entered[j].waker)
  {
    InvInEveryState(r, k);
    var s := r.states[k];
    assert s.futures[f].key.value in s.slab;
    var j :| j in s.slab && s.slab[j] == Woken;
    assert EntryOk(s.entered[j], s.slab[j], s.log);
    assert FutureOk(s.futures[s.entered[j].owner], s.entered[j].owner in s.guards);
  }

  // ----- the object -----

  ghost predicate Reachable(s: State) { Reaches<State, Step>(IsInit, Next, s) }

  lemma Onwards(s: State, e: Step)
    requires Reachable(s) && Enabled(s, e)
    ensures Reachable(Apply(s, e))
  {
    NextReached<State, Step>(IsInit, Next, s, e, Apply(s, e));
  }

  lemma KeyOccupied(s: State, f: Tid)
    requires Reachable(s) && f in s.futures
    ensures s.futures[f].key.Some? ==> s.futures[f].key.value in s.slab
  {
    var r: Run<State, Step> :| IsRun(IsInit, Next, r) && r.states[|r.steps|] == s;
    KeysAreValid(r, |r.steps|, f, f);
  }

  /** `Mutex` with its futures and guards; `waitersLock` is the standard mutex around the slab. */
  class Mutex {
    var isLocked: bool
    var hasWaiters: bool
    var waiters: map<Key, Waiter>
    var waitersLock: Option<Tid>
    var futures: map<Tid, LockFuture>
    var guards: set<Tid>
    var unlocking: set<Tid>
    ghost var entered: map<Key, Entered>
    ghost var log: seq<Waker>

    ghost function View(): State
      reads this
    {
      State(isLocked, hasWaiters, waiters, entered, waitersLock, futures, guards, unlocking, log)
    }

    ghost predicate Valid()
      reads this
    {
      Reachable(View())
    }

    constructor ()
      ensures View() == Init && Valid()
    {
      isLocked, hasWaiters, waiters, waitersLock := false, false, map[], None;
      futures, guards, unlocking := map[], {}, {};
      entered, log := map[], [];
      new;
      StartReached<State, Step>(IsInit, Next, Init);
    }

    /** `fetch_or(IS_LOCKED)` by somebody who gets a guard if the bit was clear. */
    method TryLockNow(t: Tid) returns (guard: bool)
      requires Valid() && Enabled(View(), TryLock(t))
      modifies this
      ensures View() == DoTryLock(old(View()), t) && Valid()
      ensures guard == !old(isLocked)
    {
      Onwards(View(), TryLock(t));
      guard := !isLocked;
      isLocked := true;
      if guard {
        guards := guards + {t};
      }
      if !guard { assert View() == old(View()); }
    }

    method Lock(f: Tid)
      requires Valid() && Enabled(View(), New(f))
      modifies this
      ensures View() == DoNew(old(View()), f) && Valid()
    {
      Onwards(View(), New(f));
      futures := futures[f := LockFuture(None, Rest)];
    }

    method BeginPollLock(f: Tid, w: Waker)
      requires Valid() && Enabled(View(), BeginPoll(f, w))
      modifies this
      ensures View() == DoBeginPoll(old(View()), f, w) && Valid()
    {
      Onwards(View(), BeginPoll(f, w));
      futures := futures[f := futures[f].(pc := Try1(w))];
    }

    /** The first `try_lock` of `poll`. */
    method FirstTryLock(f: Tid)
      requires Valid() && Enabled(View(), FirstTry(f))
      modifies this
      ensures View() == DoFirstTry(old(View()), f) && Valid()
    {
      Onwards(View(), FirstTry(f));
      var x, oldState := futures[f], isLocked;
      isLocked := true;
      if oldState {
        futures := futures[f := x.(pc := WantSlab(x.pc.w))];
      } else {
        guards := guards + {f};
        futures := futures[f := x.(pc := if x.key == None then Done else Removing(false))];
      }
    }

    /** Under the slab's mutex: a new entry at the vacant key k, or the waker of the old one
        replaced unless it wakes the same task. */
    method EnterSlab(f: Tid, k: Key)
      requires Valid() && Enabled(View(), EditSlab(f, k))
      modifies this
      ensures View() == DoEditSlab(old(View()), f, k) && Valid()
    {
      KeyOccupied(View(), f);
      Onwards(View(), EditSlab(f, k));
      var w := futures[f].pc.w;
      if futures[f].key == None {
        OneEntry(waiters, k, Waiting(w));
        waiters := waiters[k := Waiting(w)];
        if |waiters| == 1 {
          waitersLock := Some(f);
          futures := futures[f := LockFuture(Some(k), SetBit)];
        } else {
          futures := futures[f := LockFuture(Some(k), Try2)];
        }
      } else {
        if waiters[k] != Waiting(w) {
          waiters := waiters[k := Waiting(w)];
        }
        futures := futures[f := LockFuture(Some(k), Try2)];
      }
      entered := entered[k := Entered(f, w, |log|)];
    }

    /** `fetch_or(HAS_WAITERS)`, and the slab's mutex is released. */
    method SetHasWaiters(f: Tid)
      requires Valid() && Enabled(View(), SetBitStep(f))
      modifies this
      ensures View() == DoSetBit(old(View()), f) && Valid()
    {
      Onwards(View(), SetBitStep(f));
      hasWaiters := true;
      waitersLock := None;
      futures := futures[f := futures[f].(pc := Try2)];
    }

    /** The second `try_lock` of `poll`. */
    method SecondTryLock(f: Tid) returns (pending: bool)
      requires Valid() && Enabled(View(), SecondTry(f))
      modifies this
      ensures View() == DoSecondTry(old(View()), f) && Valid()
      ensures pending == old(isLocked)
    {
      Onwards(View(), SecondTry(f));
      pending := isLocked;
      isLocked := true;
      if pending {
        futures := futures[f := futures[f].(pc := Rest)];
      } else {
        guards := guards + {f};
        futures := futures[f := futures[f].(pc := Removing(false))];
      }
    }

    method BeginDropFuture(f: Tid)
      requires Valid() && Enabled(View(), BeginDrop(f))
      modifies this
      ensures View() == DoBeginDrop(old(View()), f) && Valid()
    {
      Onwards(View(), BeginDrop(f));
      var x := futures[f];
      futures := futures[f := x.(pc := if x.key == None then Dropped else Removing(true))];
    }

    /** `waiter.wake()` on the entry k. */
    method WakeEntry(k: Key)
      requires k in waiters
      modifies this`waiters, this`log
      ensures View() == Wake(old(View()), k)
    {
      match waiters[k]
      case Waiting(w) =>
        waiters := waiters[k := Woken];
        log := log + [w];
      case Woken =>
    }

    /** `remove_waker`, under the slab's mutex. */
    method RemoveWaker(f: Tid, k: Key)
      requires Valid() && Enabled(View(), Remove(f, k))
      modifies this
      ensures View() == DoRemove(old(View()), f, k) && Valid()
    {
      Onwards(View(), Remove(f, k));
      var x := futures[f];
      var own, wakeAnother := x.key.value, x.pc.wakeAnother;
      var removed := waiters[own];
      waiters := waiters - {own};
      entered := entered - {own};
      if waiters == map[] {
        waitersLock := Some(f);
        futures := futures[f := LockFuture(None, ClearBit(!wakeAnother))];
      } else {
        if removed.Woken? && wakeAnother {
          WakeEntry(k);
        }
        futures := futures[f := LockFuture(None, if wakeAnother then Dropped else Done)];
      }
    }

    /** `fetch_and(!HAS_WAITERS)`, and the slab's mutex is released. */
    method ClearHasWaiters(f: Tid)
      requires Valid() && Enabled(View(), ClearBitStep(f))
      modifies this
      ensures View() == DoClearBit(old(View()), f) && Valid()
    {
      Onwards(View(), ClearBitStep(f));
      hasWaiters := false;
      waitersLock := None;
      futures := futures[f := futures[f].(pc := if futures[f].pc.acquired then Done else Dropped)];
    }

    /** `fetch_and(!IS_LOCKED)` of `unlock`. */
    method BeginUnlock(t: Tid)
      requires Valid() && Enabled(View(), Unlock(t))
      modifies this
      ensures View() == DoUnlock(old(View()), t) && Valid()
    {
      Onwards(View(), Unlock(t));
      isLocked := false;
      guards := guards - {t};
      if hasWaiters {
        unlocking := unlocking + {t};
      }
    }

    /** The rest of `unlock`, under the slab's mutex: wakes the first entry, k. */
    method WakeOnUnlock(t: Tid, k: Key)
      requires Valid() && Enabled(View(), WakeFirst(t, k))
      modifies this
      ensures View() == DoWakeFirst(old(View()), t, k) && Valid()
    {
      Onwards(View(), WakeFirst(t, k));
      if waiters != map[] {
        WakeEntry(k);
      }
      unlocking := unlocking - {t};
    }
  }

  lemma OneEntry(slab: map<Key, Waiter>, k: Key, x: Waiter)
    requires k !in slab
    ensures |slab[k := x]| == 1 <==> slab == map[]
  {
    assert slab[k := x].Keys == slab.Keys + {k};
  }
}
