/** futures-channel/src/oneshot.rs on the try-locks of futures-channel/src/lock.rs.

    One sender and one receiver, each inside at most one call.  Every load and store of
    `complete` and every swap and store of a lock's flag is a step; what the holder of a lock
    does to its slot is part of the step that takes the lock, since nobody else can look. */
module Oneshots {
  import opened Runs

  type Value = nat

  /** `Lock<Option<T>>`: its flag and its slot. */
  datatype Lock<T> = Lock(locked: bool, slot: Option<T>)

  datatype SendResult = Sent | Refused(v: Value)

  datatype TxPc =
    | TxIdle
    | SendCheck(v: Value)            // loads complete
    | SendLock(v: Value)             // data.try_lock
    | SendUnlock                     // the value is in the slot
    | SendRecheck                    // loads complete again
    | SendTakeBack                   // data.try_lock, to pull the value back out
    | SendUnlockBack(r: SendResult)
    | CancelCheck(w: Waker)          // poll_canceled: loads complete
    | CancelLock(w: Waker)           // tx_task.try_lock
    | CancelUnlock(w: Waker)
    | CancelRecheck(w: Waker)
    | DropFlag                       // drop_tx: stores complete
    | DropWake                       // rx_task.try_lock
    | DropWakeUnlock(o: Option<Waker>)
    | DropCall(w: Waker)             // task.wake()
    | DropClear                      // tx_task.try_lock
    | DropClearUnlock
    | TxGone

  datatype RxPc =
    | RxIdle
    | RecvCheck(w: Waker)            // recv: loads complete
    | RecvLock(w: Waker)             // rx_task.try_lock
    | RecvUnlock(w: Waker)
    | RecvRecheck(w: Waker)
    | TryCheck                       // try_recv: loads complete
    | Take                           // recv and try_recv: data.try_lock
    | TakeUnlock(o: Option<Value>)
    | TermCheck                      // is_terminated: loads complete
    | TermLock                       // data.try_lock
    | TermUnlock
    | CloseFlag(dropping: bool)      // close_rx and drop_rx: stores complete
    | ClearTask                      // drop_rx: rx_task.try_lock
    | ClearTaskUnlock
    | WakeTx(dropping: bool)         // tx_task.try_lock
    | WakeTxUnlock(dropping: bool, o: Option<Waker>)
    | WakeTxCall(dropping: bool, w: Waker)
    | RxGone

  /** What the receiver's last call returned. */
  datatype Answer = NoCall | RecvPending | Received(v: Value) | Canceled | NotYet | Terminated(b: bool) | Closed

  datatype State = State(
    complete: bool,
    data: Lock<Value>, rxTask: Lock<Waker>, txTask: Lock<Waker>,
    tx: TxPc, rx: RxPc,
    answer: Answer,
    result: Option<SendResult>,           // what send returned
    canceled: Option<bool>,               // what the last poll_canceled returned: Ready?
    offered: Option<Value>,               // the value given to send
    delivered: seq<Value>,
    closing: bool,                        // the receiver has begun to close or drop
    closed: bool,                         // ... and a close or the drop has finished
    rxWaits: Option<Suspended>,             // the receiver's last poll returned Pending
    txWaits: Option<Suspended>,             // the sender's last poll_canceled returned Pending
    rxMark: nat, txMark: nat,
    log: seq<Waker>)

  const Init := State(
    false, Lock(false, None), Lock(false, None), Lock(false, None), TxIdle, RxIdle,
    NoCall, None, None, None, [], false, false, None, None, 0, 0, [])

  ghost predicate IsInit(s: State) { s == Init }

  // ----- the sender -----

  function DoBeginSend(s: State, v: Value): State { s.(tx := SendCheck(v), offered := Some(v), txWaits := None) }

  function DoBeginPollCanceled(s: State, w: Waker): State {
    s.(tx := CancelCheck(w), txWaits := None, txMark := |s.log|)
  }

  function DoBeginDropTx(s: State): State { s.(tx := DropFlag, txWaits := None) }

  /** `send` is over; the sender, which it consumed, is dropped. */
  function SendReturns(s: State, r: SendResult): State { s.(tx := DropFlag, result := Some(r)) }

  function CancelReturns(s: State, w: Waker, ready: bool): State {
    s.(tx := TxIdle, canceled := Some(ready), txWaits := if ready then None else Some(Suspended(w, s.txMark)))
  }

  predicate InSend(tx: TxPc) {
    tx.SendCheck? || tx.SendLock? || tx.SendUnlock? || tx.SendRecheck? || tx.SendTakeBack? || tx.SendUnlockBack?
  }

  predicate InCancel(tx: TxPc) { tx.CancelCheck? || tx.CancelLock? || tx.CancelUnlock? || tx.CancelRecheck? }

  predicate InDrop(tx: TxPc) {
    tx.DropFlag? || tx.DropWake? || tx.DropWakeUnlock? || tx.DropCall? || tx.DropClear? || tx.DropClearUnlock?
  }

  /** The next step of `send`.  `assert!(slot.is_none())` is passed on the way: the step is
      stuck where it would fail, which `Inv` excludes. */
  function DoSend(s: State): State
    requires InSend(s.tx)
  {
    match s.tx
    case SendCheck(v) => if s.complete then SendReturns(s, Refused(v)) else s.(tx := SendLock(v))
    case SendLock(v) =>
      if s.data.locked then SendReturns(s, Refused(v)) else s.(tx := SendUnlock, data := Lock(true, Some(v)))
    case SendUnlock => s.(tx := SendRecheck, data := s.data.(locked := false))
    case SendRecheck => if s.complete then s.(tx := SendTakeBack) else SendReturns(s, Sent)
    case SendTakeBack =>
      if s.data.locked then SendReturns(s, Sent)
      else s.(tx := SendUnlockBack(if s.data.slot.Some? then Refused(s.data.slot.value) else Sent), data := Lock(true, None))
    case SendUnlockBack(r) => SendReturns(s.(data := s.data.(locked := false)), r)
  }

  /** The next step of `poll_canceled`. */
  function DoCancel(s: State): State
    requires InCancel(s.tx)
  {
    match s.tx
    case CancelCheck(w) => if s.complete then CancelReturns(s, w, true) else s.(tx := CancelLock(w))
    case CancelLock(w) =>
      if s.txTask.locked then CancelReturns(s, w, true) else s.(tx := CancelUnlock(w), txTask := Lock(true, Some(w)))
    case CancelUnlock(w) => s.(tx := CancelRecheck(w), txTask := s.txTask.(locked := false))
    case CancelRecheck(w) => CancelReturns(s, w, s.complete)
  }

  /** The next step of `drop_tx`. */
  function DoDropTx(s: State): State
    requires InDrop(s.tx)
  {
    match s.tx
    case DropFlag => s.(tx := DropWake, complete := true)
    case DropWake =>
      if s.rxTask.locked then s.(tx := DropClear) else s.(tx := DropWakeUnlock(s.rxTask.slot), rxTask := Lock(true, None))
    case DropWakeUnlock(o) =>
      s.(tx := if o.Some? then DropCall(o.value) else DropClear, rxTask := s.rxTask.(locked := false))
    case DropCall(w) => s.(tx := DropClear, log := s.log + [w])
    case DropClear => if s.txTask.locked then s.(tx := TxGone) else s.(tx := DropClearUnlock, txTask := Lock(true, None))
    case DropClearUnlock => s.(tx := TxGone, txTask := s.txTask.(locked := false))
  }

  // ----- the receiver -----

  function DoBeginRecv(s: State, w: Waker): State { s.(rx := RecvCheck(w), rxWaits := None, rxMark := |s.log|) }

  function DoBeginTryRecv(s: State): State { s.(rx := TryCheck) }

  function DoBeginIsTerminated(s: State): State { s.(rx := TermCheck) }

  function DoBeginClose(s: State, dropping: bool): State {
    s.(rx := CloseFlag(dropping), closing := true, rxWaits := if dropping then None else s.rxWaits)
  }

  function RxReturns(s: State, a: Answer): State { s.(rx := RxIdle, answer := a) }

  function CloseReturns(s: State, dropping: bool): State {
    s.(rx := if dropping then RxGone else RxIdle, answer := Closed, closed := true)
  }

  predicate InRecv(rx: RxPc) { rx.RecvCheck? || rx.RecvLock? || rx.RecvUnlock? || rx.RecvRecheck? }

  predicate InTake(rx: RxPc) { rx.TryCheck? || rx.Take? || rx.TakeUnlock? || rx.TermCheck? || rx.TermLock? || rx.TermUnlock? }

  predicate InClose(rx: RxPc) {
    rx.CloseFlag? || rx.ClearTask? || rx.ClearTaskUnlock? || rx.WakeTx? || rx.WakeTxUnlock? || rx.WakeTxCall?
  }

  /** The next step of `recv`, up to looking at the data. */
  function DoRecv(s: State): State
    requires InRecv(s.rx)
  {
    match s.rx
    case RecvCheck(w) => s.(rx := if s.complete then Take else RecvLock(w))
    case RecvLock(w) =>
      if s.rxTask.locked then s.(rx := Take) else s.(rx := RecvUnlock(w), rxTask := Lock(true, Some(w)))
    case RecvUnlock(w) => s.(rx := RecvRecheck(w), rxTask := s.rxTask.(locked := false))
    case RecvRecheck(w) =>
      if s.complete then s.(rx := Take) else RxReturns(s, RecvPending).(rxWaits := Some(Suspended(w, s.rxMark)))
  }

  /** The next step of `try_recv`, `is_terminated`, or the end of `recv`. */
  function DoTake(s: State): State
    requires InTake(s.rx)
  {
    match s.rx
    case TryCheck => if s.complete then s.(rx := Take) else RxReturns(s, NotYet)
    case Take =>
      if s.data.locked then RxReturns(s, Canceled) else s.(rx := TakeUnlock(s.data.slot), data := Lock(true, None))
    case TakeUnlock(o) =>
      RxReturns(s, if o.Some? then Received(o.value) else Canceled).(
      data := s.data.(locked := false), delivered := if o.Some? then s.delivered + [o.value] else s.delivered)
    case TermCheck => if s.complete then s.(rx := TermLock) else RxReturns(s, Terminated(false))
    case TermLock =>
      if s.data.locked then RxReturns(s, Terminated(true)) else s.(rx := TermUnlock, data := s.data.(locked := true))
    case TermUnlock => RxReturns(s, Terminated(s.data.slot == None)).(data := s.data.(locked := false))
  }

  /** The next step of `close_rx` or `drop_rx`. */
  function DoClose(s: State): State
    requires InClose(s.rx)
  {
    match s.rx
    case CloseFlag(dropping) => s.(rx := if dropping then ClearTask else WakeTx(false), complete := true)
    case ClearTask =>
      if s.rxTask.locked then s.(rx := WakeTx(true)) else s.(rx := ClearTaskUnlock, rxTask := Lock(true, None))
    case ClearTaskUnlock => s.(rx := WakeTx(true), rxTask := s.rxTask.(locked := false))
    case WakeTx(dropping) =>
      if s.txTask.locked then CloseReturns(s, dropping)
      else s.(rx := WakeTxUnlock(dropping, s.txTask.slot), txTask := Lock(true, None))
    case WakeTxUnlock(dropping, o) =>
      var s' := s.(txTask := s.txTask.(locked := false));
      if o.Some? then s'.(rx := WakeTxCall(dropping, o.value)) else CloseReturns(s', dropping)
    case WakeTxCall(dropping, w) => CloseReturns(s.(log := s.log + [w]), dropping)
  }

  datatype Step =
    | BeginSend(v: Value) | BeginPollCanceled(w: Waker) | BeginDropTx | SendStep | CancelStep | DropTxStep
    | BeginRecv(w: Waker) | BeginTryRecv | BeginIsTerminated | BeginClose(dropping: bool) | RecvStep | TakeStep | CloseStep

  predicate Enabled(s: State, e: Step) {
    match e
    case BeginSend(_) => s.tx.TxIdle?
    case BeginPollCanceled(_) => s.tx.TxIdle?
    case BeginDropTx => s.tx.TxIdle?
    case SendStep => InSend(s.tx) && (s.tx.SendLock? && !s.data.locked ==> s.data.slot == None)
    case CancelStep => InCancel(s.tx)
    case DropTxStep => InDrop(s.tx)
    case BeginRecv(_) => s.rx.RxIdle?
    case BeginTryRecv => s.rx.RxIdle?
    case BeginIsTerminated => s.rx.RxIdle?
    case BeginClose(_) => s.rx.RxIdle?
    case RecvStep => InRecv(s.rx)
    case TakeStep => InTake(s.rx)
    case CloseStep => InClose(s.rx)
  }

  function Apply(s: State, e: Step): State
    requires Enabled(s, e)
  {
    match e
    case BeginSend(v) => DoBeginSend(s, v)
    case BeginPollCanceled(w) => DoBeginPollCanceled(s, w)
    case BeginDropTx => DoBeginDropTx(s)
    case SendStep => DoSend(s)
    case CancelStep => DoCancel(s)
    case DropTxStep => DoDropTx(s)
    case BeginRecv(w) => DoBeginRecv(s, w)
    case BeginTryRecv => DoBeginTryRecv(s)
    case BeginIsTerminated => DoBeginIsTerminated(s)
    case BeginClose(dropping) => DoBeginClose(s, dropping)
    case RecvStep => DoRecv(s)
    case TakeStep => DoTake(s)
    case CloseStep => DoClose(s)
  }

  ghost predicate Next(s: State, e: Step, s': State) { Enabled(s, e) && s' == Apply(s, e) }

  // ----- the invariant -----

  predicate TxHasData(tx: TxPc) { tx.SendUnlock? || tx.SendUnlockBack? }
  predicate RxHasData(rx: RxPc) { rx.TakeUnlock? || rx.TermUnlock? }
  predicate TxHasRxTask(tx: TxPc) { tx.DropWakeUnlock? }
  predicate RxHasRxTask(rx: RxPc) { rx.RecvUnlock? || rx.ClearTaskUnlock? }
  predicate TxHasTxTask(tx: TxPc) { tx.CancelUnlock? || tx.DropClearUnlock? }
  predicate RxHasTxTask(rx: RxPc) { rx.WakeTxUnlock? }

  /** A lock's flag is set exactly while one of the two holds it, and never both do. */
  predicate LocksOk(s: State) {
    && (s.data.locked <==> TxHasData(s.tx) || RxHasData(s.rx)) && !(TxHasData(s.tx) && RxHasData(s.rx))
    && (s.rxTask.locked <==> TxHasRxTask(s.tx) || RxHasRxTask(s.rx)) && !(TxHasRxTask(s.tx) && RxHasRxTask(s.rx))
    && (s.txTask.locked <==> TxHasTxTask(s.tx) || RxHasTxTask(s.rx)) && !(TxHasTxTask(s.tx) && RxHasTxTask(s.rx))
  }

  /** drop_tx has stored complete. */
  predicate TxFlagged(tx: TxPc) {
    tx.DropWake? || tx.DropWakeUnlock? || tx.DropCall? || tx.DropClear? || tx.DropClearUnlock? || tx.TxGone?
  }

  /** close_rx or drop_rx has stored complete, in this call. */
  predicate RxFlagged(rx: RxPc) {
    rx.ClearTask? || rx.ClearTaskUnlock? || rx.WakeTx? || rx.WakeTxUnlock? || rx.WakeTxCall? || rx.RxGone?
  }

  predicate Dropping(tx: TxPc) { tx.DropFlag? || TxFlagged(tx) }

  /** Who sets `complete`. */
  predicate CompleteOk(s: State) {
    && (TxFlagged(s.tx) || RxFlagged(s.rx) || s.closed ==> s.complete)
    && (s.complete ==> TxFlagged(s.tx) || s.closing)
    && (RxFlagged(s.rx) || s.rx.CloseFlag? || s.closed ==> s.closing)
    && (s.rx.Take? || RxHasData(s.rx) || s.rx.TermLock? || s.answer.Canceled? || s.answer.Received? ==> s.complete)
    && (s.tx.SendTakeBack? || s.tx.SendUnlockBack? ==> s.complete)
    && (s.rx.RxGone? ==> s.closed)
  }

  predicate Before(tx: TxPc) { tx.TxIdle? || tx.CancelCheck? || tx.CancelLock? || tx.CancelUnlock? || tx.CancelRecheck? }

  /** The value given to send is in exactly one place. */
  predicate ValueOk(s: State) {
    && (s.offered == None <==> Before(s.tx) || (Dropping(s.tx) && s.result == None))
    && (s.offered == None ==> s.result == None && s.data.slot == None && s.delivered == [] && !(s.rx.TakeUnlock? && s.rx.o.Some?))
    && (s.result.Some? ==> Dropping(s.tx))
    && (s.offered.Some? ==> ValuePlace(s, s.offered.value))
  }

  predicate InTxHand(tx: TxPc, v: Value) { tx == SendCheck(v) || tx == SendLock(v) || tx == SendUnlockBack(Refused(v)) }
  predicate InRxHand(rx: RxPc) { rx.TakeUnlock? && rx.o.Some? }

  predicate ValuePlace(s: State, v: Value) {
    && (s.data.slot.Some? ==> s.data.slot == Some(v))
    && (InRxHand(s.rx) ==> s.rx.o == Some(v))
    && (s.delivered == [] || s.delivered == [v])
    && (s.result.Some? ==> s.result == Some(Sent) || s.result == Some(Refused(v)))
    && (s.tx.SendCheck? || s.tx.SendLock? ==> s.tx.v == v)
    && (s.tx.SendUnlockBack? ==> s.tx.r == Sent || s.tx.r == Refused(v))
    && (if InTxHand(s.tx, v) || s.result == Some(Refused(v)) then
          s.data.slot == None && !InRxHand(s.rx) && s.delivered == []
        else if s.data.slot.Some? then !InRxHand(s.rx) && s.delivered == []
        else InRxHand(s.rx) <==> s.delivered == [])
  }

  /** drop_tx has tried to take the receiver's waker. */
  predicate TxPastWake(tx: TxPc) {
    tx.DropWakeUnlock? || tx.DropCall? || tx.DropClear? || tx.DropClearUnlock? || tx.TxGone?
  }

  /** A receiver waiting for its waker to be called: it is in place, in the sender's hands, or called. */
  predicate RxWakeOk(s: State) {
    && (InRecv(s.rx) ==> s.rxWaits == None && s.rxMark <= |s.log|)
    && (s.rx.ClearTask? || s.rx.ClearTaskUnlock? || (s.rx.CloseFlag? && s.rx.dropping) ==> s.rxWaits == None)
    && (s.rx.RecvUnlock? || s.rx.RecvRecheck? ==> TxFlagged(s.tx) || s.rxTask.slot == Some(s.rx.w))
    && (s.rxWaits.Some? ==> InHandOrWoken(s.rxWaits.value, s.tx, s.rxTask.slot, s.log))
  }

  predicate InHandOrWoken(x: Suspended, tx: TxPc, slot: Option<Waker>, log: seq<Waker>) {
    && x.mark <= |log|
    && ((!TxPastWake(tx) && slot == Some(x.w)) || tx == DropWakeUnlock(Some(x.w)) || tx == DropCall(x.w) || Woken(log, x))
  }

  /** The first close will find the sender's waker in place, or has it in hand. */
  predicate WakerComing(rx: RxPc, slot: Option<Waker>, w: Waker) {
    match rx
    case WakeTxUnlock(_, o) => o == Some(w)
    case WakeTxCall(_, v) => v == w
    case _ => slot == Some(w)
  }

  /** A sender waiting for the receiver to go away. */
  predicate TxWakeOk(s: State) {
    && (InCancel(s.tx) ==> s.txMark <= |s.log|)
    && (s.tx.CancelUnlock? || s.tx.CancelRecheck? ==> s.complete || s.txTask.slot == Some(s.tx.w))
    && (s.txWaits.Some? ==>
          var x := s.txWaits.value;
          && s.tx.TxIdle? && x.mark <= |s.log|
          && ((!s.closed && WakerComing(s.rx, s.txTask.slot, x.w)) || Woken(s.log, x)))
    && (s.canceled == Some(true) ==> s.complete)
  }

  /** With a receiver that neither closed nor dropped, whoever finds nothing after a
      successful send has been given the value before. */
  predicate AnswerOk(s: State) {
    !s.closing && s.result == Some(Sent) && (s.answer.Canceled? || s.answer.Received? || s.rx == TakeUnlock(None)) ==>
      s.delivered != []
  }

  predicate FlagsOk(s: State) { LocksOk(s) && CompleteOk(s) }

  predicate Inv(s: State) { FlagsOk(s) && ValueOk(s) && AnswerOk(s) && RxWakeOk(s) && TxWakeOk(s) }

  // ----- every step keeps it -----

  lemma CallKeeps(s: State, s': State, w: Waker)
    requires s'.log == s.log + [w]
    ensures forall x: Suspended :: x.mark <= |s.log| && (Woken(s.log, x) || w == x.w) ==> Woken(s'.log, x)
  {
    forall x: Suspended | x.mark <= |s.log| && (Woken(s.log, x) || w == x.w) ensures Woken(s'.log, x) { WokenStays(s.log, x.mark, x.w, w); }
  }

  lemma SendKeepsFlags(s: State)
    requires FlagsOk(s) && Enabled(s, SendStep)
    ensures FlagsOk(DoSend(s))
  {
    match s.tx
    case SendCheck(v) => case SendLock(v) => case SendUnlock => case SendRecheck => case SendTakeBack => case SendUnlockBack(r) =>
  }

  lemma SendKeepsValue(s: State)
    requires FlagsOk(s) && ValueOk(s) && Enabled(s, SendStep)
    ensures ValueOk(DoSend(s))
  {
    match s.tx
    case SendCheck(v) => case SendLock(v) => case SendUnlock => case SendRecheck => case SendTakeBack => case SendUnlockBack(r) =>
  }

  lemma SendKeepsAnswer(s: State)
    requires FlagsOk(s) && ValueOk(s) && AnswerOk(s) && Enabled(s, SendStep)
    ensures AnswerOk(DoSend(s))
  {
    match s.tx
    case SendCheck(v) => case SendLock(v) => case SendUnlock => case SendRecheck => case SendTakeBack => case SendUnlockBack(r) =>
  }

  lemma SendKeepsRxWake(s: State)
    requires FlagsOk(s) && RxWakeOk(s) && Enabled(s, SendStep)
    ensures RxWakeOk(DoSend(s))
  {
    match s.tx
    case SendCheck(v) => case SendLock(v) => case SendUnlock => case SendRecheck => case SendTakeBack => case SendUnlockBack(r) =>
  }

  lemma SendKeepsTxWake(s: State)
    requires FlagsOk(s) && TxWakeOk(s) && Enabled(s, SendStep)
    ensures TxWakeOk(DoSend(s))
  {
    match s.tx
    case SendCheck(v) => case SendLock(v) => case SendUnlock => case SendRecheck => case SendTakeBack => case SendUnlockBack(r) =>
  }

  lemma CancelKeepsFlags(s: State)
    requires FlagsOk(s) && Enabled(s, CancelStep)
    ensures FlagsOk(DoCancel(s))
  {
    match s.tx
    case CancelCheck(w) => case CancelLock(w) => case CancelUnlock(w) => case CancelRecheck(w) =>
  }

  lemma CancelKeepsValue(s: State)
    requires FlagsOk(s) && ValueOk(s) && AnswerOk(s) && Enabled(s, CancelStep)
    ensures ValueOk(DoCancel(s)) && AnswerOk(DoCancel(s))
  {
    match s.tx
    case CancelCheck(w) => case CancelLock(w) => case CancelUnlock(w) => case CancelRecheck(w) =>
  }

  lemma CancelKeepsWakes(s: State)
    requires FlagsOk(s) && RxWakeOk(s) && TxWakeOk(s) && Enabled(s, CancelStep)
    ensures RxWakeOk(DoCancel(s)) && TxWakeOk(DoCancel(s))
  {
    match s.tx
    case CancelCheck(w) => case CancelLock(w) => case CancelUnlock(w) => case CancelRecheck(w) =>
  }

  lemma DropTxKeepsFlags(s: State)
    requires FlagsOk(s) && Enabled(s, DropTxStep)
    ensures FlagsOk(DoDropTx(s))
  {
    match s.tx
    case DropFlag => case DropWake => case DropWakeUnlock(o) => case DropClear => case DropClearUnlock => case DropCall(w) =>
  }

  lemma DropTxLeavesValue(s: State)
    requires Enabled(s, DropTxStep)
    ensures var s' := DoDropTx(s);
            && s'.data == s.data && Dropping(s.tx) && Dropping(s'.tx) && s'.offered == s.offered && s'.rx == s.rx
            && s'.result == s.result && s'.delivered == s.delivered
  {
    match s.tx
    case DropFlag => case DropWake => case DropWakeUnlock(o) => case DropClear => case DropClearUnlock => case DropCall(w) =>
  }

  lemma DropTxKeepsValue(s: State)
    requires ValueOk(s) && Enabled(s, DropTxStep)
    ensures ValueOk(DoDropTx(s))
  {
    DropTxLeavesValue(s);
  }

  lemma DropTxKeepsAnswer(s: State)
    requires FlagsOk(s) && ValueOk(s) && AnswerOk(s) && Enabled(s, DropTxStep)
    ensures AnswerOk(DoDropTx(s))
  {
    match s.tx
    case DropFlag => case DropWake => case DropWakeUnlock(o) => case DropClear => case DropClearUnlock => case DropCall(w) =>
  }

  lemma DropTxKeepsRxWake(s: State)
    requires FlagsOk(s) && RxWakeOk(s) && Enabled(s, DropTxStep)
    ensures RxWakeOk(DoDropTx(s))
  {
    match s.tx
    case DropCall(w) => CallKeeps(s, DoDropTx(s), w);
    case DropFlag => case DropWake => case DropWakeUnlock(o) => case DropClear => case DropClearUnlock =>
  }

  /** A sender that is being dropped no longer waits. */
  lemma DropTxKeepsTxWake(s: State)
    requires TxWakeOk(s) && Enabled(s, DropTxStep)
    ensures TxWakeOk(DoDropTx(s))
  {
    match s.tx
    case DropCall(w) => case DropFlag => case DropWake => case DropWakeUnlock(o) => case DropClear => case DropClearUnlock =>
  }

  lemma RecvKeepsFlags(s: State)
    requires FlagsOk(s) && Enabled(s, RecvStep)
    ensures FlagsOk(DoRecv(s))
  {
    match s.rx
    case RecvCheck(w) => case RecvLock(w) => case RecvUnlock(w) => case RecvRecheck(w) =>
  }

  lemma RecvKeepsValue(s: State)
    requires FlagsOk(s) && ValueOk(s) && AnswerOk(s) && Enabled(s, RecvStep)
    ensures ValueOk(DoRecv(s))
  {
    match s.rx
    case RecvCheck(w) => case RecvLock(w) => case RecvUnlock(w) => case RecvRecheck(w) =>
  }

  lemma RecvKeepsAnswer(s: State)
    requires FlagsOk(s) && ValueOk(s) && AnswerOk(s) && Enabled(s, RecvStep)
    ensures AnswerOk(DoRecv(s))
  {
    match s.rx
    case RecvCheck(w) => case RecvLock(w) => case RecvUnlock(w) => case RecvRecheck(w) =>
  }

  lemma RecvKeepsWakes(s: State)
    requires FlagsOk(s) && RxWakeOk(s) && TxWakeOk(s) && Enabled(s, RecvStep)
    ensures RxWakeOk(DoRecv(s)) && TxWakeOk(DoRecv(s))
  {
    match s.rx
    case RecvCheck(w) => case RecvLock(w) => case RecvUnlock(w) => case RecvRecheck(w) =>
  }

  lemma TakeKeepsFlags(s: State)
    requires FlagsOk(s) && Enabled(s, TakeStep)
    ensures FlagsOk(DoTake(s))
  {
    match s.rx
    case TryCheck => case Take => case TakeUnlock(o) => case TermCheck => case TermLock => case TermUnlock =>
  }

  lemma TakeKeepsValue(s: State)
    requires FlagsOk(s) && ValueOk(s) && AnswerOk(s) && Enabled(s, TakeStep)
    ensures ValueOk(DoTake(s)) && AnswerOk(DoTake(s))
  {
    match s.rx
    case TryCheck => case Take => case TakeUnlock(o) => case TermCheck => case TermLock => case TermUnlock =>
  }

  lemma TakeKeepsRxWake(s: State)
    requires RxWakeOk(s) && Enabled(s, TakeStep)
    ensures RxWakeOk(DoTake(s))
  {
    match s.rx
    case TryCheck => case Take => case TakeUnlock(o) => case TermCheck => case TermLock => case TermUnlock =>
  }

  lemma TakeKeepsTxWake(s: State)
    requires TxWakeOk(s) && Enabled(s, TakeStep)
    ensures TxWakeOk(DoTake(s))
  {
    match s.rx
    case TryCheck => case Take => case TakeUnlock(o) => case TermCheck => case TermLock => case TermUnlock =>
  }

  lemma CloseKeepsFlags(s: State)
    requires FlagsOk(s) && Enabled(s, CloseStep)
    ensures FlagsOk(DoClose(s))
  {
    match s.rx
    case CloseFlag(dropping) => case ClearTask => case ClearTaskUnlock => case WakeTx(dropping) => case WakeTxUnlock(dropping, o) => case WakeTxCall(dropping, w) =>
  }

  /** Nothing that holds the value has changed. */
  lemma ValueStays(s: State, s': State)
    requires ValueOk(s) && s'.data.slot == s.data.slot && s'.tx == s.tx && s'.offered == s.offered
    requires s'.result == s.result && s'.delivered == s.delivered && !s.rx.TakeUnlock? && !s'.rx.TakeUnlock?
    ensures ValueOk(s')
  {
  }

  lemma CloseLeavesValue(s: State)
    requires Enabled(s, CloseStep)
    ensures var s' := DoClose(s);
            && s'.data == s.data && s'.tx == s.tx && s'.offered == s.offered
            && s'.result == s.result && s'.delivered == s.delivered && !s'.rx.TakeUnlock?
  {
    match s.rx
    case CloseFlag(dropping) => case ClearTask => case ClearTaskUnlock => case WakeTx(dropping) => case WakeTxUnlock(dropping, o) => case WakeTxCall(dropping, w) =>
  }

  lemma CloseKeepsValue(s: State)
    requires ValueOk(s) && Enabled(s, CloseStep)
    ensures ValueOk(DoClose(s))
  {
    CloseLeavesValue(s);
    ValueStays(s, DoClose(s));
  }

  lemma CloseKeepsAnswer(s: State)
    requires FlagsOk(s) && ValueOk(s) && AnswerOk(s) && Enabled(s, CloseStep)
    ensures AnswerOk(DoClose(s))
  {
    match s.rx
    case CloseFlag(dropping) => case ClearTask => case ClearTaskUnlock => case WakeTx(dropping) => case WakeTxUnlock(dropping, o) => case WakeTxCall(dropping, w) =>
  }

  lemma CloseKeepsRxWake(s: State)
    requires LocksOk(s) && RxWakeOk(s) && Enabled(s, CloseStep) && !s.rx.WakeTxCall?
    ensures RxWakeOk(DoClose(s))
  {
    match s.rx
    case CloseFlag(dropping) => case ClearTask => case ClearTaskUnlock => case WakeTx(dropping) => case WakeTxUnlock(dropping, o) =>
  }

  lemma CloseKeepsTxWake(s: State)
    requires FlagsOk(s) && TxWakeOk(s) && Enabled(s, CloseStep) && !s.rx.WakeTxCall?
    ensures TxWakeOk(DoClose(s))
  {
    match s.rx
    case CloseFlag(dropping) => case ClearTask => case ClearTaskUnlock => case WakeTx(dropping) => case WakeTxUnlock(dropping, o) =>
  }

  lemma CloseCallKeepsWakes(s: State)
    requires FlagsOk(s) && RxWakeOk(s) && TxWakeOk(s) && s.rx.WakeTxCall?
    ensures RxWakeOk(DoClose(s)) && TxWakeOk(DoClose(s))
  {
    CallKeeps(s, DoClose(s), s.rx.w);
  }

  predicate Begins(e: Step) {
    e.BeginSend? || e.BeginPollCanceled? || e.BeginDropTx? || e.BeginRecv? || e.BeginTryRecv? || e.BeginIsTerminated? || e.BeginClose?
  }

  lemma BeginKeepsFlags(s: State, e: Step)
    requires FlagsOk(s) && Enabled(s, e) && Begins(e)
    ensures FlagsOk(Apply(s, e))
  {
    match e
    case BeginSend(v) => case BeginPollCanceled(w) => case BeginDropTx =>
    case BeginRecv(w) => case BeginTryRecv => case BeginIsTerminated => case BeginClose(dropping) =>
  }

  lemma BeginKeepsValue(s: State, e: Step)
    requires FlagsOk(s) && ValueOk(s) && AnswerOk(s) && Enabled(s, e) && Begins(e)
    ensures ValueOk(Apply(s, e)) && AnswerOk(Apply(s, e))
  {
    match e
    case BeginSend(v) => case BeginPollCanceled(w) => case BeginDropTx =>
    case BeginRecv(w) => case BeginTryRecv => case BeginIsTerminated => case BeginClose(dropping) =>
  }

  lemma BeginKeepsWakes(s: State, e: Step)
    requires RxWakeOk(s) && TxWakeOk(s) && Enabled(s, e) && Begins(e)
    ensures RxWakeOk(Apply(s, e)) && TxWakeOk(Apply(s, e))
  {
    match e
    case BeginSend(v) => case BeginPollCanceled(w) => case BeginDropTx =>
    case BeginRecv(w) => case BeginTryRecv => case BeginIsTerminated => case BeginClose(dropping) =>
  }

  lemma KeepsInv(s: State, e: Step)
    requires Inv(s) && Enabled(s, e)
    ensures Inv(Apply(s, e))
  {
    match e
    case SendStep =>
      SendKeepsFlags(s);
      SendKeepsValue(s); SendKeepsAnswer(s);
      SendKeepsRxWake(s); SendKeepsTxWake(s);
    case CancelStep =>
      CancelKeepsFlags(s);
      CancelKeepsValue(s);
      CancelKeepsWakes(s);
    case DropTxStep =>
      DropTxKeepsFlags(s);
      DropTxKeepsValue(s); DropTxKeepsAnswer(s);
      DropTxKeepsRxWake(s);
      DropTxKeepsTxWake(s);
    case RecvStep =>
      RecvKeepsFlags(s);
      RecvKeepsValue(s); RecvKeepsAnswer(s);
      RecvKeepsWakes(s);
    case TakeStep =>
      TakeKeepsFlags(s);
      TakeKeepsValue(s);
      TakeKeepsRxWake(s);
      TakeKeepsTxWake(s);
    case CloseStep =>
      CloseKeepsFlags(s);
      CloseKeepsValue(s); CloseKeepsAnswer(s);
      if s.rx.WakeTxCall? { CloseCallKeepsWakes(s); } else { CloseKeepsRxWake(s); CloseKeepsTxWake(s); }
    case _ =>
      BeginKeepsFlags(s, e);
      BeginKeepsValue(s, e);
      BeginKeepsWakes(s, e);
  }

  lemma InvInEveryState(r: Run<State, Step>, k: nat)
    requires IsRun(IsInit, Next, r) && k < |r.states|
    ensures Inv(r.states[k])
  {
    forall s, e, s' | Inv(s) && Next(s, e, s') ensures Inv(s') { KeepsInv(s, e); }
    Invariance(IsInit, Next, Inv, r, k);
  }

  // ----- what the source promises -----

  /** `Lock`: the flag is set exactly while one of the two halves is between its successful
      try_lock and its release, and never are both. */
  lemma LocksExclude(r: Run<State, Step>, k: nat)
    requires IsRun(IsInit, Next, r) && k < |r.states|
    ensures LocksOk(r.states[k])
  {
    InvInEveryState(r, k);
  }

  /** The value given to send has been returned as an error, or delivered once, or is left in
      the slot of a send that succeeded, and only one of these. */
  lemma ValueConserved(r: Run<State, Step>, k: nat)
    requires IsRun(IsInit, Next, r) && k < |r.states| && r.states[k].result.Some? && !r.states[k].rx.TakeUnlock?
    ensures var s, v := r.states[k], r.states[k].offered;
            && v.Some?
            && ((s.result == Some(Refused(v.value)) && s.delivered == [] && s.data.slot == None)
                || (s.result == Some(Sent) && s.delivered == [v.value] && s.data.slot == None)
                || (s.result == Some(Sent) && s.delivered == [] && s.data.slot == v))
  {
    InvInEveryState(r, k);
  }

  /** `assert!(slot.is_none())` in send never fails. */
  lemma SendNeverStuck(r: Run<State, Step>, k: nat)
    requires IsRun(IsInit, Next, r) && k < |r.states| && InSend(r.states[k].tx)
    ensures Enabled(r.states[k], SendStep)
  {
    InvInEveryState(r, k);
  }

  /** A send that begins after close or drop of the receiver has returned. */
  predicate RefusedSend(s: State, v: Value) {
    s.complete && (s.tx == SendCheck(v) || (Dropping(s.tx) && s.result == Some(Refused(v))) || (s.tx.TxGone? && s.result == Some(Refused(v))))
  }

  lemma RefusedStays(s: State, e: Step, v: Value)
    requires Enabled(s, e) && RefusedSend(s, v)
    ensures RefusedSend(Apply(s, e), v)
  {
    match e
    case SendStep => case DropTxStep => case RecvStep => case TakeStep => case CloseStep =>
    case BeginRecv(_) => case BeginTryRecv => case BeginIsTerminated => case BeginClose(_) =>
    case CancelStep => assert false;
    case BeginSend(_) => assert false;
    case BeginPollCanceled(_) => assert false;
    case BeginDropTx => assert false;
  }

  /** ... fails, and hands its value back. */
  lemma {:induction false} SendAfterCloseFails(r: Run<State, Step>, n: nat, j: nat, v: Value)
    requires IsRun(IsInit, Next, r) && n < j < |r.states|
    requires r.steps[n] == BeginSend(v) && r.states[n].closed
    ensures RefusedSend(r.states[j], v)
    ensures r.states[j].result.Some? ==> r.states[j].result == Some(Refused(v))
    decreases j
  {
    assert Next(r.states[j - 1], r.steps[j - 1], r.states[j - 1 + 1]);
    if j - 1 == n {
      InvInEveryState(r, n);
      InvInEveryState(r, j);
    } else {
      SendAfterCloseFails(r, n, j - 1, v);
      RefusedStays(r.states[j - 1], r.steps[j - 1], v);
      InvInEveryState(r, j);
    }
  }

  /** If send succeeded and the receiver has neither closed nor dropped, a Ready answer means
      that the value has been delivered: the first one delivers it. */
  lemma ReadyMeansDelivered(r: Run<State, Step>, k: nat)
    requires IsRun(IsInit, Next, r) && k < |r.states|
    requires r.states[k].result == Some(Sent) && !r.states[k].closing
    requires r.states[k].answer.Received? || r.states[k].answer.Canceled?
    ensures r.states[k].offered.Some? && r.states[k].delivered == [r.states[k].offered.value]
  {
    InvInEveryState(r, k);
  }

  /** A receiver whose last poll returned Pending has been woken once `drop_tx` has finished. */
  lemma PendingReceiverIsWoken(r: Run<State, Step>, k: nat)
    requires IsRun(IsInit, Next, r) && k < |r.states|
    requires r.states[k].rxWaits.Some? && r.states[k].tx.TxGone?
    ensures Woken(r.states[k].log, r.states[k].rxWaits.value)
  {
    InvInEveryState(r, k);
  }

  /** A sender whose last `poll_canceled` returned Pending has been woken once a `close_rx` or
      the `drop_rx` has finished, whatever the receiver does after that. */
  lemma PendingSenderIsWoken(r: Run<State, Step>, k: nat)
    requires IsRun(IsInit, Next, r) && k < |r.states|
    requires r.states[k].txWaits.Some? && (r.states[k].closed || r.states[k].rx.RxGone?)
    ensures Woken(r.states[k].log, r.states[k].txWaits.value)
  {
    InvInEveryState(r, k);
  }

  /** `poll_canceled` returns Ready only if `complete` is set, although it does so without
      looking when it finds the lock taken. */
  lemma CanceledMeansComplete(r: Run<State, Step>, k: nat)
    requires IsRun(IsInit, Next, r) && k < |r.states| && r.states[k].canceled == Some(true)
    ensures r.states[k].complete
  {
    InvInEveryState(r, k);
  }

  // ----- the object -----

  ghost predicate Reachable(s: State) { Reaches<State, Step>(IsInit, Next, s) }

  lemma Onwards(s: State, e: Step)
    requires Reachable(s) && Enabled(s, e)
    ensures Reachable(Apply(s, e))
  {
    NextReached<State, Step>(IsInit, Next, s, e, Apply(s, e));
  }

  lemma SendIsEnabled(s: State)
    requires Reachable(s) && InSend(s.tx)
    ensures Enabled(s, SendStep)
  {
    var r: Run<State, Step> :| IsRun(IsInit, Next, r) && r.states[|r.steps|] == s;
    SendNeverStuck(r, |r.steps|);
  }

  /** `Inner` with the positions of its two halves. */
  class Inner {
    var complete: bool
    var data: Lock<Value>
    var rxTask: Lock<Waker>
    var txTask: Lock<Waker>
    var tx: TxPc
    var rx: RxPc
    var answer: Answer
    var result: Option<SendResult>
    var canceled: Option<bool>
    ghost var offered: Option<Value>
    ghost var delivered: seq<Value>
    ghost var closing: bool
    ghost var closed: bool
    ghost var rxWaits: Option<Suspended>
    ghost var txWaits: Option<Suspended>
    ghost var rxMark: nat
    ghost var txMark: nat
    ghost var log: seq<Waker>

    ghost function View(): State
      reads this
    {
      State(complete, data, rxTask, txTask, tx, rx, answer, result, canceled, offered, delivered, closing, closed,
            rxWaits, txWaits, rxMark, txMark, log)
    }

    ghost predicate Valid()
      reads this
    {
      Reachable(View())
    }

    constructor ()
      ensures View() == Init && Valid()
    {
      complete, data, rxTask, txTask := false, Lock(false, None), Lock(false, None), Lock(false, None);
      tx, rx, answer, result, canceled := TxIdle, RxIdle, NoCall, None, None;
      offered, delivered, closing, closed := None, [], false, false;
      rxWaits, txWaits, rxMark, txMark, log := None, None, 0, 0, [];
      new;
      StartReached<State, Step>(IsInit, Next, Init);
    }

    // ----- the sender -----

    method Send(v: Value)
      requires Valid() && tx.TxIdle?
      modifies this
      ensures View() == DoBeginSend(old(View()), v) && Valid()
    {
      Onwards(View(), BeginSend(v));
      tx := SendCheck(v);
      offered, txWaits := Some(v), None;
    }

    /** A step of `send`. */
    method GoOnSending()
      requires Valid() && InSend(tx)
      modifies this
      ensures View() == DoSend(old(View())) && Valid()
    {
      SendIsEnabled(View());
      Onwards(View(), SendStep);
      match tx
      case SendCheck(v) =>
        if complete { tx, result := DropFlag, Some(Refused(v)); } else { tx := SendLock(v); }
      case SendLock(v) =>
        if !data.locked {
          assert data.slot == None;           // assert!(slot.is_none())
          data, tx := Lock(true, Some(v)), SendUnlock;
        } else {
          tx, result := DropFlag, Some(Refused(v));
        }
      case SendUnlock => data, tx := data.(locked := false), SendRecheck;
      case SendRecheck =>
        if complete { tx := SendTakeBack; } else { tx, result := DropFlag, Some(Sent); }
      case SendTakeBack =>
        if !data.locked {
          tx := SendUnlockBack(if data.slot.Some? then Refused(data.slot.value) else Sent);
          data := Lock(true, None);
        } else {
          tx, result := DropFlag, Some(Sent);
        }
      case SendUnlockBack(r) => data, tx, result := data.(locked := false), DropFlag, Some(r);
    }

    method PollCanceled(w: Waker)
      requires Valid() && tx.TxIdle?
      modifies this
      ensures View() == DoBeginPollCanceled(old(View()), w) && Valid()
    {
      Onwards(View(), BeginPollCanceled(w));
      tx := CancelCheck(w);
      txWaits, txMark := None, |log|;
    }

    method CancelReturn(w: Waker, ready: bool)
      modifies this
      ensures View() == CancelReturns(old(View()), w, ready)
    {
      tx, canceled := TxIdle, Some(ready);
      txWaits := if ready then None else Some(Suspended(w, txMark));
    }

    /** A step of `poll_canceled`. */
    method GoOnPollingCanceled()
      requires Valid() && InCancel(tx)
      modifies this
      ensures View() == DoCancel(old(View())) && Valid()
    {
      Onwards(View(), CancelStep);
      match tx
      case CancelCheck(w) => if complete { CancelReturn(w, true); } else { tx := CancelLock(w); }
      case CancelLock(w) =>
        if !txTask.locked {
          txTask, tx := Lock(true, Some(w)), CancelUnlock(w);
        } else {
          CancelReturn(w, true);
        }
      case CancelUnlock(w) => txTask, tx := txTask.(locked := false), CancelRecheck(w);
      case CancelRecheck(w) => CancelReturn(w, complete);
    }

    method DropSender()
      requires Valid() && tx.TxIdle?
      modifies this
      ensures View() == DoBeginDropTx(old(View())) && Valid()
    {
      Onwards(View(), BeginDropTx);
      tx := DropFlag;
      txWaits := None;
    }

    /** A step of `drop_tx`. */
    method GoOnDroppingSender()
      requires Valid() && InDrop(tx)
      modifies this
      ensures View() == DoDropTx(old(View())) && Valid()
    {
      Onwards(View(), DropTxStep);
      match tx
      case DropFlag => complete, tx := true, DropWake;
      case DropWake =>
        if !rxTask.locked {
          tx := DropWakeUnlock(rxTask.slot);
          rxTask := Lock(true, None);
        } else {
          tx := DropClear;
        }
      case DropWakeUnlock(o) =>
        rxTask := rxTask.(locked := false);
        tx := if o.Some? then DropCall(o.value) else DropClear;
      case DropCall(w) =>
        tx := DropClear;
        log := log + [w];
      case DropClear =>
        if !txTask.locked {
          txTask, tx := Lock(true, None), DropClearUnlock;
        } else {
          tx := TxGone;
        }
      case DropClearUnlock => txTask, tx := txTask.(locked := false), TxGone;
    }

    // ----- the receiver -----

    method Poll(w: Waker)
      requires Valid() && rx.RxIdle?
      modifies this
      ensures View() == DoBeginRecv(old(View()), w) && Valid()
    {
      Onwards(View(), BeginRecv(w));
      rx := RecvCheck(w);
      rxWaits, rxMark := None, |log|;
    }

    method TryRecv()
      requires Valid() && rx.RxIdle?
      modifies this
      ensures View() == DoBeginTryRecv(old(View())) && Valid()
    {
      Onwards(View(), BeginTryRecv);
      rx := TryCheck;
    }

    method IsTerminated()
      requires Valid() && rx.RxIdle?
      modifies this
      ensures View() == DoBeginIsTerminated(old(View())) && Valid()
    {
      Onwards(View(), BeginIsTerminated);
      rx := TermCheck;
    }

    /** A step of `recv` before it looks at the data. */
    method GoOnPolling()
      requires Valid() && InRecv(rx)
      modifies this
      ensures View() == DoRecv(old(View())) && Valid()
    {
      Onwards(View(), RecvStep);
      match rx
      case RecvCheck(w) => rx := if complete then Take else RecvLock(w);
      case RecvLock(w) =>
        if !rxTask.locked {
          rxTask, rx := Lock(true, Some(w)), RecvUnlock(w);
        } else {
          rx := Take;
        }
      case RecvUnlock(w) => rxTask, rx := rxTask.(locked := false), RecvRecheck(w);
      case RecvRecheck(w) =>
        if complete {
          rx := Take;
        } else {
          rx, answer := RxIdle, RecvPending;
          rxWaits := Some(Suspended(w, rxMark));
        }
    }

    /** A step of `recv` or `try_recv` that looks at the data, or of `is_terminated`. */
    method GoOnTaking()
      requires Valid() && InTake(rx)
      modifies this
      ensures View() == DoTake(old(View())) && Valid()
    {
      if rx.TermCheck? || rx.TermLock? || rx.TermUnlock? {
        GoOnIsTerminated();
      } else {
        Onwards(View(), TakeStep);
        match rx
        case TryCheck => if complete { rx := Take; } else { rx, answer := RxIdle, NotYet; }
        case Take =>
          if !data.locked {
            rx := TakeUnlock(data.slot);
            data := Lock(true, None);
          } else {
            rx, answer := RxIdle, Canceled;
          }
        case TakeUnlock(o) =>
          data, rx := data.(locked := false), RxIdle;
          answer := if o.Some? then Received(o.value) else Canceled;
          delivered := if o.Some? then delivered + [o.value] else delivered;
      }
    }

    method GoOnIsTerminated()
      requires Valid() && (rx.TermCheck? || rx.TermLock? || rx.TermUnlock?)
      modifies this
      ensures View() == DoTake(old(View())) && Valid()
    {
      Onwards(View(), TakeStep);
      match rx
      case TermCheck => if complete { rx := TermLock; } else { rx, answer := RxIdle, Terminated(false); }
      case TermLock =>
        if !data.locked {
          data, rx := data.(locked := true), TermUnlock;
        } else {
          rx, answer := RxIdle, Terminated(true);
        }
      case TermUnlock => data, rx, answer := data.(locked := false), RxIdle, Terminated(data.slot == None);
    }

    /** `close`, or the drop of the receiver. */
    method CloseReceiver(dropping: bool)
      requires Valid() && rx.RxIdle?
      modifies this
      ensures View() == DoBeginClose(old(View()), dropping) && Valid()
    {
      Onwards(View(), BeginClose(dropping));
      rx := CloseFlag(dropping);
      closing := true;
      rxWaits := if dropping then None else rxWaits;
    }

    method CloseReturn(dropping: bool)
      modifies this
      ensures View() == CloseReturns(old(View()), dropping)
    {
      rx := if dropping then RxGone else RxIdle;
      answer := Closed;
      closed := true;
    }

    /** A step of `close_rx` or `drop_rx`. */
    method GoOnClosing()
      requires Valid() && InClose(rx)
      modifies this
      ensures View() == DoClose(old(View())) && Valid()
    {
      if rx.WakeTx? || rx.WakeTxUnlock? || rx.WakeTxCall? {
        GoOnWakingTx();
      } else {
        Onwards(View(), CloseStep);
        match rx
        case CloseFlag(dropping) => complete, rx := true, if dropping then ClearTask else WakeTx(false);
        case ClearTask =>
          if !rxTask.locked {
            rxTask, rx := Lock(true, None), ClearTaskUnlock;
          } else {
            rx := WakeTx(true);
          }
        case ClearTaskUnlock => rxTask, rx := rxTask.(locked := false), WakeTx(true);
      }
    }

    /** The last part of `close_rx` and `drop_rx`: the sender's waker is taken and called. */
    method GoOnWakingTx()
      requires Valid() && (rx.WakeTx? || rx.WakeTxUnlock? || rx.WakeTxCall?)
      modifies this
      ensures View() == DoClose(old(View())) && Valid()
    {
      Onwards(View(), CloseStep);
      match rx
      case WakeTx(dropping) =>
        if !txTask.locked {
          rx := WakeTxUnlock(dropping, txTask.slot);
          txTask := Lock(true, None);
        } else {
          CloseReturn(dropping);
        }
      case WakeTxUnlock(dropping, o) =>
        txTask := txTask.(locked := false);
        if o.Some? {
          rx := WakeTxCall(dropping, o.value);
        } else {
          CloseReturn(dropping);
        }
      case WakeTxCall(dropping, w) =>
        log := log + [w];
        CloseReturn(dropping);
    }
  }
}
