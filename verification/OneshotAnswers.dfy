/** What the calls of the oneshot channel answer, and that the answers are due
    (futures-channel/src/oneshot.rs). */
module OneshotAnswers {
  import opened Runs
  import opened Oneshots

  lemma StepOf(r: Run<State, Step>, k: nat)
    requires IsRun(IsInit, Next, r) && k < |r.steps|
    ensures Enabled(r.states[k], r.steps[k]) && r.states[k + 1] == Apply(r.states[k], r.steps[k])
  {
    assert Next(r.states[k], r.steps[k], r.states[k + 1]);
  }

  // ----- what one half leaves alone -----

  /** How many steps the sender's call has left at most. */
  function TxLeft(tx: TxPc): nat {
    match tx
    case SendCheck(_) => 13
    case SendLock(_) => 12
    case SendUnlock => 11
    case SendRecheck => 10
    case SendTakeBack => 9
    case SendUnlockBack(_) => 8
    case DropFlag => 6
    case DropWake => 5
    case DropWakeUnlock(_) => 4
    case DropCall(_) => 3
    case DropClear => 2
    case DropClearUnlock => 1
    case CancelCheck(_) => 4
    case CancelLock(_) => 3
    case CancelUnlock(_) => 2
    case CancelRecheck(_) => 1
    case _ => 0
  }

  function RxLeft(rx: RxPc): nat {
    match rx
    case RecvCheck(_) => 6
    case RecvLock(_) => 5
    case RecvUnlock(_) => 4
    case RecvRecheck(_) => 3
    case TryCheck => 3
    case Take => 2
    case TakeUnlock(_) => 1
    case TermCheck => 3
    case TermLock => 2
    case TermUnlock => 1
    case CloseFlag(_) => 6
    case ClearTask => 5
    case ClearTaskUnlock => 4
    case WakeTx(_) => 3
    case WakeTxUnlock(_, _) => 2
    case WakeTxCall(_, _) => 1
    case _ => 0
  }

  predicate BeginsRx(e: Step) { e.BeginRecv? || e.BeginTryRecv? || e.BeginIsTerminated? || e.BeginClose? }

  predicate BeginsTx(e: Step) { e.BeginSend? || e.BeginPollCanceled? || e.BeginDropTx? }

  predicate TxSteps(e: Step) { e.SendStep? || e.CancelStep? || e.DropTxStep? }

  predicate RxSteps(e: Step) { e.RecvStep? || e.TakeStep? || e.CloseStep? }

  predicate RxUntouched(s: State, s': State) {
    && s'.rx == s.rx && s'.answer == s.answer && s'.delivered == s.delivered && s'.closing == s.closing && s'.closed == s.closed
    && s'.rxWaits == s.rxWaits && s'.rxMark == s.rxMark && (s.complete ==> s'.complete)
    && (Dropping(s.tx) ==> Dropping(s'.tx) && s'.data == s.data)
  }

  lemma SendFrame(s: State)
    requires Enabled(s, SendStep)
    ensures var s' := DoSend(s); RxUntouched(s, s') && s'.offered == s.offered && TxLeft(s'.tx) < TxLeft(s.tx)
  {
    match s.tx
    case SendCheck(_) => case SendLock(_) => case SendUnlock => case SendRecheck => case SendTakeBack => case SendUnlockBack(_) =>
  }

  lemma CancelFrame(s: State)
    requires Enabled(s, CancelStep)
    ensures var s' := DoCancel(s); RxUntouched(s, s') && s'.offered == s.offered && TxLeft(s'.tx) < TxLeft(s.tx)
  {
    match s.tx
    case CancelCheck(_) => case CancelLock(_) => case CancelUnlock(_) => case CancelRecheck(_) =>
  }

  lemma DropTxFrame(s: State)
    requires Enabled(s, DropTxStep)
    ensures var s' := DoDropTx(s); RxUntouched(s, s') && s'.offered == s.offered
  {
    match s.tx
    case DropFlag => case DropWake => case DropWakeUnlock(_) => case DropClear => case DropClearUnlock => case DropCall(_) =>
  }

  lemma DropTxGoesOn(s: State)
    requires Enabled(s, DropTxStep)
    ensures TxLeft(DoDropTx(s).tx) < TxLeft(s.tx)
  {
    match s.tx
    case DropFlag => case DropWake => case DropWakeUnlock(_) => case DropClear => case DropClearUnlock => case DropCall(_) =>
  }
  lemma TxFrame(s: State, e: Step)
    requires Enabled(s, e) && (TxSteps(e) || BeginsTx(e))
    ensures RxUntouched(s, Apply(s, e))
  {
    match e
    case SendStep => SendFrame(s);
    case CancelStep => CancelFrame(s);
    case DropTxStep => DropTxFrame(s);
    case BeginSend(_) => case BeginPollCanceled(_) => case BeginDropTx =>
  }

  predicate TxUntouched(s: State, s': State) {
    && s'.tx == s.tx && s'.result == s.result && s'.offered == s.offered && s'.canceled == s.canceled
    && s'.txWaits == s.txWaits && s'.txMark == s.txMark && (s.complete ==> s'.complete) && (s.closing ==> s'.closing)
  }

  lemma RecvFrame(s: State)
    requires Enabled(s, RecvStep)
    ensures TxUntouched(s, DoRecv(s)) && DoRecv(s).closing == s.closing && RxLeft(DoRecv(s).rx) < RxLeft(s.rx)
  {
    match s.rx
    case RecvCheck(_) => case RecvLock(_) => case RecvUnlock(_) => case RecvRecheck(_) =>
  }

  lemma TakeFrame(s: State)
    requires Enabled(s, TakeStep)
    ensures TxUntouched(s, DoTake(s)) && DoTake(s).closing == s.closing && RxLeft(DoTake(s).rx) < RxLeft(s.rx)
  {
    match s.rx
    case TryCheck => case Take => case TakeUnlock(_) => case TermCheck => case TermLock => case TermUnlock =>
  }

  lemma CloseFrame(s: State)
    requires Enabled(s, CloseStep)
    ensures var s' := DoClose(s); TxUntouched(s, s') && s'.closing == s.closing
  {
    match s.rx
    case CloseFlag(_) => case ClearTask => case ClearTaskUnlock => case WakeTx(_) => case WakeTxUnlock(_, _) => case WakeTxCall(_, _) =>
  }

  lemma CloseGoesOn(s: State)
    requires Enabled(s, CloseStep)
    ensures RxLeft(DoClose(s).rx) < RxLeft(s.rx)
  {
    match s.rx
    case CloseFlag(_) => case ClearTask => case ClearTaskUnlock => case WakeTx(_) => case WakeTxUnlock(_, _) => case WakeTxCall(_, _) =>
  }
  lemma RxFrame(s: State, e: Step)
    requires Enabled(s, e) && (RxSteps(e) || BeginsRx(e))
    ensures TxUntouched(s, Apply(s, e)) && (!e.BeginClose? ==> Apply(s, e).closing == s.closing)
  {
    match e
    case RecvStep => RecvFrame(s);
    case TakeStep => TakeFrame(s);
    case CloseStep => CloseFrame(s);
    case BeginRecv(_) => case BeginTryRecv => case BeginIsTerminated => case BeginClose(_) =>
  }
  // ----- what holds of answers already given -----

  /** Only a receiver that closes makes a send fail. */
  predicate RefusedOk(s: State) {
    s.tx.SendTakeBack? || s.tx.SendUnlockBack? || (s.result.Some? && s.result.value.Refused?) ==> s.closing
  }

  predicate AnswersOk(s: State) {
    match s.answer
    case Received(v) => s.delivered == [v]
    case Terminated(b) => b ==> s.complete
    case Closed => s.closed
    case _ => true
  }

  predicate RxCleared(rx: RxPc) {
    rx.ClearTaskUnlock? || ((rx.WakeTx? || rx.WakeTxUnlock? || rx.WakeTxCall?) && rx.dropping) || rx.RxGone?
  }

  /** Who has taken a waker out of its slot has left the slot empty. */
  predicate SlotsOk(s: State) {
    && (RxHasTxTask(s.rx) || s.tx.DropClearUnlock? || s.tx.TxGone? ==> s.txTask.slot == None)
    && (TxHasRxTask(s.tx) || RxCleared(s.rx) ==> s.rxTask.slot == None)
  }

  lemma TxKeepsRefused(s: State, e: Step)
    requires FlagsOk(s) && RefusedOk(s) && Enabled(s, e) && (TxSteps(e) || BeginsTx(e))
    ensures RefusedOk(Apply(s, e))
  {
    match e
    case SendStep =>
      match s.tx {
        case SendCheck(_) => case SendLock(_) => case SendUnlock => case SendRecheck => case SendTakeBack => case SendUnlockBack(_) =>
      }
    case CancelStep =>
      match s.tx { case CancelCheck(_) => case CancelLock(_) => case CancelUnlock(_) => case CancelRecheck(_) => }
    case DropTxStep =>
      match s.tx { case DropFlag => case DropWake => case DropWakeUnlock(_) => case DropClear => case DropClearUnlock => case DropCall(_) => }
    case BeginSend(_) => case BeginPollCanceled(_) => case BeginDropTx =>
  }

  lemma KeepsRefused(s: State, e: Step)
    requires FlagsOk(s) && RefusedOk(s) && Enabled(s, e)
    ensures RefusedOk(Apply(s, e))
  {
    if RxSteps(e) || BeginsRx(e) { RxFrame(s, e); } else { TxKeepsRefused(s, e); }
  }

  lemma RecvKeepsAnswers(s: State)
    requires CompleteOk(s) && ValueOk(s) && AnswersOk(s) && Enabled(s, RecvStep)
    ensures AnswersOk(DoRecv(s))
  {
    match s.rx
    case RecvCheck(_) => case RecvLock(_) => case RecvUnlock(_) => case RecvRecheck(_) =>
  }

  lemma TakeKeepsAnswers(s: State)
    requires CompleteOk(s) && ValueOk(s) && AnswersOk(s) && Enabled(s, TakeStep)
    ensures AnswersOk(DoTake(s))
  {
    match s.rx
    case TryCheck => case Take => case TakeUnlock(_) => case TermCheck => case TermLock => case TermUnlock =>
  }

  lemma CloseKeepsAnswers(s: State)
    requires CompleteOk(s) && ValueOk(s) && AnswersOk(s) && Enabled(s, CloseStep)
    ensures AnswersOk(DoClose(s))
  {
    match s.rx
    case CloseFlag(_) => case ClearTask => case ClearTaskUnlock => case WakeTx(_) => case WakeTxUnlock(_, _) => case WakeTxCall(_, _) =>
  }

  lemma RxKeepsAnswers(s: State, e: Step)
    requires CompleteOk(s) && ValueOk(s) && AnswersOk(s) && Enabled(s, e) && (RxSteps(e) || BeginsRx(e))
    ensures AnswersOk(Apply(s, e))
  {
    match e
    case RecvStep => RecvKeepsAnswers(s);
    case TakeStep => TakeKeepsAnswers(s);
    case CloseStep => CloseKeepsAnswers(s);
    case BeginRecv(_) => case BeginTryRecv => case BeginIsTerminated => case BeginClose(_) =>
  }
  lemma KeepsAnswers(s: State, e: Step)
    requires FlagsOk(s) && ValueOk(s) && AnswersOk(s) && Enabled(s, e)
    ensures AnswersOk(Apply(s, e))
  {
    if TxSteps(e) || BeginsTx(e) { TxFrame(s, e); } else { RxKeepsAnswers(s, e); }
  }

  lemma SendKeepsSlots(s: State)
    requires LocksOk(s) && SlotsOk(s) && Enabled(s, SendStep)
    ensures SlotsOk(DoSend(s))
  {
    match s.tx
    case SendCheck(_) => case SendLock(_) => case SendUnlock => case SendRecheck => case SendTakeBack => case SendUnlockBack(_) =>
  }

  lemma CancelKeepsSlots(s: State)
    requires LocksOk(s) && SlotsOk(s) && Enabled(s, CancelStep)
    ensures SlotsOk(DoCancel(s))
  {
    match s.tx
    case CancelCheck(_) => case CancelLock(_) => case CancelUnlock(_) => case CancelRecheck(_) =>
  }

  lemma DropTxKeepsSlots(s: State)
    requires LocksOk(s) && SlotsOk(s) && Enabled(s, DropTxStep)
    ensures SlotsOk(DoDropTx(s))
  {
    match s.tx
    case DropFlag => case DropWake => case DropWakeUnlock(_) => case DropClear => case DropClearUnlock => case DropCall(_) =>
  }

  lemma TxKeepsSlots(s: State, e: Step)
    requires LocksOk(s) && SlotsOk(s) && Enabled(s, e) && (TxSteps(e) || BeginsTx(e))
    ensures SlotsOk(Apply(s, e))
  {
    match e
    case SendStep => SendKeepsSlots(s);
    case CancelStep => CancelKeepsSlots(s);
    case DropTxStep => DropTxKeepsSlots(s);
    case BeginSend(_) => case BeginPollCanceled(_) => case BeginDropTx =>
  }
  lemma RecvKeepsSlots(s: State)
    requires LocksOk(s) && SlotsOk(s) && Enabled(s, RecvStep)
    ensures SlotsOk(DoRecv(s))
  {
    match s.rx
    case RecvCheck(_) => case RecvLock(_) => case RecvUnlock(_) => case RecvRecheck(_) =>
  }

  lemma TakeKeepsSlots(s: State)
    requires LocksOk(s) && SlotsOk(s) && Enabled(s, TakeStep)
    ensures SlotsOk(DoTake(s))
  {
    match s.rx
    case TryCheck => case Take => case TakeUnlock(_) => case TermCheck => case TermLock => case TermUnlock =>
  }

  lemma CloseKeepsSlots(s: State)
    requires LocksOk(s) && SlotsOk(s) && Enabled(s, CloseStep)
    ensures SlotsOk(DoClose(s))
  {
    match s.rx
    case CloseFlag(_) => case ClearTask => case ClearTaskUnlock => case WakeTx(_) => case WakeTxUnlock(_, _) => case WakeTxCall(_, _) =>
  }

  lemma RxKeepsSlots(s: State, e: Step)
    requires LocksOk(s) && SlotsOk(s) && Enabled(s, e) && (RxSteps(e) || BeginsRx(e))
    ensures SlotsOk(Apply(s, e))
  {
    match e
    case RecvStep => RecvKeepsSlots(s);
    case TakeStep => TakeKeepsSlots(s);
    case CloseStep => CloseKeepsSlots(s);
    case BeginRecv(_) => case BeginTryRecv => case BeginIsTerminated => case BeginClose(_) =>
  }
  lemma KeepsSlots(s: State, e: Step)
    requires LocksOk(s) && SlotsOk(s) && Enabled(s, e)
    ensures SlotsOk(Apply(s, e))
  {
    if TxSteps(e) || BeginsTx(e) { TxKeepsSlots(s, e); } else { RxKeepsSlots(s, e); }
  }

  predicate AllOk(s: State) { Inv(s) && RefusedOk(s) && AnswersOk(s) && SlotsOk(s) }

  lemma OkInEveryState(r: Run<State, Step>, k: nat)
    requires IsRun(IsInit, Next, r) && k < |r.states|
    ensures AllOk(r.states[k])
  {
    forall s, e, s' | AllOk(s) && Next(s, e, s') ensures AllOk(s') {
      KeepsInv(s, e);
      KeepsRefused(s, e);
      KeepsAnswers(s, e);
      KeepsSlots(s, e);
    }
    Invariance(IsInit, Next, AllOk, r, k);
  }

  lemma BeganToClose(r: Run<State, Step>, k: nat)
    requires IsRun(IsInit, Next, r) && k < |r.states| && r.states[k].closing
    ensures exists n :: 0 <= n < k && r.steps[n].BeginClose?
  {
    var n := Origin((s: State) => s.closing, r, 0, k);
    StepOf(r, n);
    ClosingBegins(r.states[n], r.steps[n]);
  }

  lemma ClosingBegins(s: State, e: Step)
    requires Enabled(s, e) && !s.closing && Apply(s, e).closing
    ensures e.BeginClose?
  {
    if TxSteps(e) || BeginsTx(e) { TxFrame(s, e); } else { RxFrame(s, e); }
  }
  /** A send that ends before the receiver begins to close or drop succeeds. */
  lemma SendSucceedsUnlessClosing(r: Run<State, Step>, k: nat)
    requires IsRun(IsInit, Next, r) && k < |r.states| && r.states[k].result.Some?
    requires forall n :: 0 <= n < k ==> !r.steps[n].BeginClose?
    ensures r.states[k].result == Some(Sent)
  {
    OkInEveryState(r, k);
    if r.states[k].closing { BeganToClose(r, k); }
  }

  lemma OfferedBegins(s: State, e: Step)
    requires Enabled(s, e) && Apply(s, e).offered != s.offered
    ensures e.BeginSend? && Apply(s, e).offered == Some(e.v)
  {
    match e
    case SendStep => SendFrame(s);
    case CancelStep => CancelFrame(s);
    case DropTxStep => DropTxFrame(s);
    case BeginSend(_) => case BeginPollCanceled(_) => case BeginDropTx =>
    case _ => RxFrame(s, e);
  }
  /** The value that ValueConserved follows is the argument of send. */
  lemma OfferedIsTheArgument(r: Run<State, Step>, k: nat, v: Value)
    requires IsRun(IsInit, Next, r) && k < |r.states| && r.states[k].offered == Some(v)
    ensures exists n :: 0 <= n < k && r.steps[n] == BeginSend(v)
  {
    var n := Origin((s: State) => s.offered == Some(v), r, 0, k);
    StepOf(r, n);
    OfferedBegins(r.states[n], r.steps[n]);
  }

  /** What an answer says for certain: a value received is the one the receiver was given, and
      an is_terminated that answers true, a Canceled and a value mean that `complete` is set. */
  lemma AnswersAreTrue(r: Run<State, Step>, k: nat)
    requires IsRun(IsInit, Next, r) && k < |r.states|
    ensures var s := r.states[k];
            && (s.answer.Received? ==> s.delivered == [s.answer.v] && s.offered == Some(s.answer.v))
            && (s.answer.Received? || s.answer.Canceled? || s.answer == Terminated(true) ==> s.complete)
            && (s.complete ==> Dropping(s.tx) || s.closing)
  {
    OkInEveryState(r, k);
  }

  /** A half that is gone has left no waker of its own behind. */
  lemma NoWakerLeft(r: Run<State, Step>, k: nat)
    requires IsRun(IsInit, Next, r) && k < |r.states|
    ensures r.states[k].tx.TxGone? ==> r.states[k].txTask.slot == None
    ensures r.states[k].rx.RxGone? ==> r.states[k].rxTask.slot == None
  {
    OkInEveryState(r, k);
  }

  // ----- calls and their answers -----

  /** The receiver is inside the call that step e began, or has answered it; `mark` wake-ups had
      happened before. */
  predicate RxServes(s: State, e: Step, mark: nat) {
    match e
    case BeginRecv(w) =>
      if InRecv(s.rx) then s.rx.w == w && s.rxMark == mark
      else s.rx.Take? || s.rx.TakeUnlock? ||
           (s.rx.RxIdle? && (s.answer.Received? || s.answer.Canceled? || (s.answer.RecvPending? && s.rxWaits == Some(Suspended(w, mark)))))
    case BeginTryRecv =>
      s.rx.TryCheck? || s.rx.Take? || s.rx.TakeUnlock? || (s.rx.RxIdle? && (s.answer.Received? || s.answer.Canceled? || s.answer.NotYet?))
    case BeginIsTerminated => s.rx.TermCheck? || s.rx.TermLock? || s.rx.TermUnlock? || (s.rx.RxIdle? && s.answer.Terminated?)
    case BeginClose(dropping) =>
      if s.rx.ClearTask? || s.rx.ClearTaskUnlock? then dropping
      else if InClose(s.rx) then s.rx.dropping == dropping
      else s.rx == (if dropping then RxGone else RxIdle) && s.answer.Closed?
    case _ => false
  }

  lemma RecvServes(s: State, call: Step, mark: nat)
    requires Enabled(s, RecvStep) && RxServes(s, call, mark)
    ensures RxServes(DoRecv(s), call, mark)
  {
    match s.rx
    case RecvCheck(_) => case RecvLock(_) => case RecvUnlock(_) => case RecvRecheck(_) =>
  }

  lemma TakeServes(s: State, call: Step, mark: nat)
    requires Enabled(s, TakeStep) && RxServes(s, call, mark)
    ensures RxServes(DoTake(s), call, mark)
  {
    match s.rx
    case TryCheck => case Take => case TakeUnlock(_) => case TermCheck => case TermLock => case TermUnlock =>
  }

  lemma CloseServes(s: State, call: Step, mark: nat)
    requires Enabled(s, CloseStep) && RxServes(s, call, mark)
    ensures RxServes(DoClose(s), call, mark)
  {
    match s.rx
    case CloseFlag(_) => case ClearTask => case ClearTaskUnlock => case WakeTx(_) => case WakeTxUnlock(_, _) => case WakeTxCall(_, _) =>
  }

  lemma RxKeepsServing(s: State, e: Step, call: Step, mark: nat)
    requires Enabled(s, e) && !BeginsRx(e) && RxServes(s, call, mark)
    ensures RxServes(Apply(s, e), call, mark)
  {
    match e
    case RecvStep => RecvServes(s, call, mark);
    case TakeStep => TakeServes(s, call, mark);
    case CloseStep => CloseServes(s, call, mark);
    case _ => TxFrame(s, e);
  }
  /** Each call of the receiver is answered in its own way; a poll that answers Pending leaves
      its own waker waiting, from the moment the poll began. */
  lemma RxAnswersFit(r: Run<State, Step>, i: nat, k: nat)
    requires IsRun(IsInit, Next, r) && i < k < |r.states| && BeginsRx(r.steps[i])
    requires forall j :: i < j < k ==> !BeginsRx(r.steps[j])
    ensures RxServes(r.states[k], r.steps[i], |r.states[i].log|)
  {
    StepOf(r, i);
    var call, mark := r.steps[i], |r.states[i].log|;
    var keep := (s: State) => RxServes(s, call, mark);
    forall j | i + 1 <= j < k && keep(r.states[j]) ensures keep(r.states[j + 1]) {
      StepOf(r, j);
      RxKeepsServing(r.states[j], r.steps[j], call, mark);
    }
    Persistence(keep, r, i + 1, k);
  }

  /** The sender is inside a poll_canceled with waker w, or has answered it. */
  predicate TxServes(s: State, w: Waker, mark: nat) {
    if InCancel(s.tx) then s.tx.w == w && s.txMark == mark
    else s.tx.TxIdle? && s.canceled.Some? && s.txWaits == if s.canceled.value then None else Some(Suspended(w, mark))
  }

  lemma TxKeepsServing(s: State, e: Step, w: Waker, mark: nat)
    requires Enabled(s, e) && !BeginsTx(e) && TxServes(s, w, mark) && (InCancel(s.tx) ==> s.txWaits == None)
    ensures TxServes(Apply(s, e), w, mark) && (InCancel(Apply(s, e).tx) ==> Apply(s, e).txWaits == None)
  {
    match e
    case SendStep =>
      match s.tx {
        case SendCheck(_) => case SendLock(_) => case SendUnlock => case SendRecheck => case SendTakeBack => case SendUnlockBack(_) =>
      }
    case CancelStep =>
      match s.tx { case CancelCheck(_) => case CancelLock(_) => case CancelUnlock(_) => case CancelRecheck(_) => }
    case DropTxStep =>
      match s.tx { case DropFlag => case DropWake => case DropWakeUnlock(_) => case DropClear => case DropClearUnlock => case DropCall(_) => }
    case _ => RxFrame(s, e);
  }

  /** A poll_canceled that answers Pending leaves its own waker waiting, from the moment it began. */
  lemma CancelAnswersFit(r: Run<State, Step>, i: nat, k: nat, w: Waker)
    requires IsRun(IsInit, Next, r) && i < k < |r.states| && r.steps[i] == BeginPollCanceled(w)
    requires forall j :: i < j < k ==> !BeginsTx(r.steps[j])
    ensures TxServes(r.states[k], w, |r.states[i].log|)
  {
    StepOf(r, i);
    var mark := |r.states[i].log|;
    var keep := (s: State) => TxServes(s, w, mark) && (InCancel(s.tx) ==> s.txWaits == None);
    forall j | i + 1 <= j < k && keep(r.states[j]) ensures keep(r.states[j + 1]) {
      StepOf(r, j);
      TxKeepsServing(r.states[j], r.steps[j], w, mark);
    }
    Persistence(keep, r, i + 1, k);
  }

  // ----- once complete is set -----

  /** A recv or try_recv will not be answered with Pending or NotYet. */
  predicate Final(s: State) {
    s.complete && (s.rx.RecvCheck? || s.rx.TryCheck? || s.rx.Take? || s.rx.TakeUnlock? || (s.rx.RxIdle? && (s.answer.Received? || s.answer.Canceled?)))
  }

  lemma FinalStays(s: State, e: Step)
    requires Enabled(s, e) && !BeginsRx(e) && Final(s)
    ensures Final(Apply(s, e))
  {
    match e
    case RecvStep =>
      match s.rx { case RecvCheck(_) => case RecvLock(_) => case RecvUnlock(_) => case RecvRecheck(_) => }
    case TakeStep =>
      match s.rx { case TryCheck => case Take => case TakeUnlock(_) => case TermCheck => case TermLock => case TermUnlock => }
    case CloseStep =>
      match s.rx { case CloseFlag(_) => case ClearTask => case ClearTaskUnlock => case WakeTx(_) => case WakeTxUnlock(_, _) => case WakeTxCall(_, _) => }
    case _ => TxFrame(s, e);
  }

  /** Once the sender's drop or a close has set `complete`, a call of recv or try_recv answers
      the value or Canceled. */
  lemma CompleteMeansReady(r: Run<State, Step>, i: nat, k: nat)
    requires IsRun(IsInit, Next, r) && i < k < |r.states| && r.states[i].complete
    requires (r.steps[i].BeginRecv? || r.steps[i].BeginTryRecv?) && forall j :: i < j < k ==> !BeginsRx(r.steps[j])
    ensures r.states[k].rx.RxIdle? ==> r.states[k].answer.Received? || r.states[k].answer.Canceled?
  {
    StepOf(r, i);
    var keep := (s: State) => Final(s);
    forall j | i + 1 <= j < k && keep(r.states[j]) ensures keep(r.states[j + 1]) {
      StepOf(r, j);
      FinalStays(r.states[j], r.steps[j]);
    }
    Persistence(keep, r, i + 1, k);
  }

  predicate CancelFinal(s: State) { s.complete && (s.tx.CancelCheck? || (s.tx.TxIdle? && s.canceled == Some(true))) }

  lemma CancelFinalStays(s: State, e: Step)
    requires Enabled(s, e) && !BeginsTx(e) && CancelFinal(s)
    ensures CancelFinal(Apply(s, e))
  {
    match e
    case SendStep =>
      match s.tx {
        case SendCheck(_) => case SendLock(_) => case SendUnlock => case SendRecheck => case SendTakeBack => case SendUnlockBack(_) =>
      }
    case CancelStep =>
      match s.tx { case CancelCheck(_) => case CancelLock(_) => case CancelUnlock(_) => case CancelRecheck(_) => }
    case DropTxStep =>
      match s.tx { case DropFlag => case DropWake => case DropWakeUnlock(_) => case DropClear => case DropClearUnlock => case DropCall(_) => }
    case _ => RxFrame(s, e);
  }

  /** And a poll_canceled answers Ready. */
  lemma CompleteMeansCanceled(r: Run<State, Step>, i: nat, k: nat, w: Waker)
    requires IsRun(IsInit, Next, r) && i < k < |r.states| && r.states[i].complete && r.steps[i] == BeginPollCanceled(w)
    requires forall j :: i < j < k ==> !BeginsTx(r.steps[j])
    ensures r.states[k].tx.TxIdle? ==> r.states[k].canceled == Some(true)
  {
    StepOf(r, i);
    var keep := (s: State) => CancelFinal(s);
    forall j | i + 1 <= j < k && keep(r.states[j]) ensures keep(r.states[j + 1]) {
      StepOf(r, j);
      CancelFinalStays(r.states[j], r.steps[j]);
    }
    Persistence(keep, r, i + 1, k);
  }

  /** The sender is through with the data; `slot` is what it left, and the receiver's call e
      looks at it or has done so. */
  predicate Looks(s: State, e: Step, slot: Option<Value>) {
    && s.complete && Dropping(s.tx)
    && match s.rx
       case RecvCheck(_) => e.BeginRecv? && s.data == Lock(false, slot)
       case TryCheck => e.BeginTryRecv? && s.data == Lock(false, slot)
       case Take => !e.BeginIsTerminated? && s.data == Lock(false, slot)
       case TakeUnlock(o) => !e.BeginIsTerminated? && o == slot
       case TermCheck => e.BeginIsTerminated? && s.data == Lock(false, slot)
       case TermLock => e.BeginIsTerminated? && s.data == Lock(false, slot)
       case TermUnlock => e.BeginIsTerminated? && s.data.slot == slot
       case RxIdle =>
         s.answer == if e.BeginIsTerminated? then Terminated(slot == None) else if slot.Some? then Received(slot.value) else Canceled
       case _ => false
  }

  lemma LookingStays(s: State, e: Step, call: Step, slot: Option<Value>)
    requires Enabled(s, e) && !BeginsRx(e) && Looks(s, call, slot)
    ensures Looks(Apply(s, e), call, slot)
  {
    match e
    case RecvStep =>
      match s.rx { case RecvCheck(_) => case RecvLock(_) => case RecvUnlock(_) => case RecvRecheck(_) => }
    case TakeStep =>
      match s.rx { case TryCheck => case Take => case TakeUnlock(_) => case TermCheck => case TermLock => case TermUnlock => }
    case CloseStep =>
      match s.rx { case CloseFlag(_) => case ClearTask => case ClearTaskUnlock => case WakeTx(_) => case WakeTxUnlock(_, _) => case WakeTxCall(_, _) => }
    case _ => TxFrame(s, e);
  }

  /** Once the sender is through, every call is answered from what it left in the slot, also
      after a close: the value is received if and only if it is there, and is_terminated says
      whether it is not. */
  lemma AnsweredFromSlot(r: Run<State, Step>, i: nat, k: nat)
    requires IsRun(IsInit, Next, r) && i < k < |r.states| && r.states[i].complete && Dropping(r.states[i].tx)
    requires r.steps[i].BeginRecv? || r.steps[i].BeginTryRecv? || r.steps[i].BeginIsTerminated?
    requires forall j :: i < j < k ==> !BeginsRx(r.steps[j])
    ensures var slot, s := r.states[i].data.slot, r.states[k];
            s.rx.RxIdle? ==>
              s.answer == if r.steps[i].BeginIsTerminated? then Terminated(slot == None)
                          else if slot.Some? then Received(slot.value) else Canceled
  {
    StepOf(r, i);
    OkInEveryState(r, i);
    var call, slot := r.steps[i], r.states[i].data.slot;
    var keep := (s: State) => Looks(s, call, slot);
    forall j | i + 1 <= j < k && keep(r.states[j]) ensures keep(r.states[j + 1]) {
      StepOf(r, j);
      LookingStays(r.states[j], r.steps[j], call, slot);
    }
    Persistence(keep, r, i + 1, k);
  }

  // ----- every call ends -----

  lemma TxLeftFalls(s: State, e: Step)
    requires Enabled(s, e) && !BeginsTx(e)
    ensures TxLeft(Apply(s, e).tx) + (if TxSteps(e) then 1 else 0) <= TxLeft(s.tx)
  {
    match e
    case SendStep => SendFrame(s);
    case CancelStep => CancelFrame(s);
    case DropTxStep => DropTxGoesOn(s);
    case _ => RxFrame(s, e);
  }
  lemma RxLeftFalls(s: State, e: Step)
    requires Enabled(s, e) && !BeginsRx(e)
    ensures RxLeft(Apply(s, e).rx) + (if RxSteps(e) then 1 else 0) <= RxLeft(s.rx)
  {
    match e
    case RecvStep => RecvFrame(s);
    case TakeStep => TakeFrame(s);
    case CloseStep => CloseGoesOn(s);
    case _ => TxFrame(s, e);
  }
  /** Whatever the other half does, a call of the sender takes at most 13 steps, the drop that
      follows a send included ... */
  lemma SenderCallIsShort(r: Run<State, Step>, i: nat, k: nat)
    requires IsRun(IsInit, Next, r) && i < k < |r.states| && BeginsTx(r.steps[i])
    requires forall j :: i < j < k ==> !BeginsTx(r.steps[j])
    ensures Count(TxSteps, r.steps, i + 1, k) <= 13
  {
    StepOf(r, i);
    var keep, rank := (s: State) => true, (s: State) => TxLeft(s.tx);
    forall j | i + 1 <= j < k && keep(r.states[j])
      ensures keep(r.states[j + 1]) && rank(r.states[j + 1]) + (if TxSteps(r.steps[j]) then 1 else 0) <= rank(r.states[j])
    {
      StepOf(r, j);
      TxLeftFalls(r.states[j], r.steps[j]);
    }
    RankFalls(keep, rank, TxSteps, r, i + 1, k);
    TxLeftAtMost(r.states[i + 1].tx);
  }

  lemma TxLeftAtMost(tx: TxPc)
    ensures TxLeft(tx) <= 13
  {
  }

  /** ... and one of the receiver at most 6. */
  lemma ReceiverCallIsShort(r: Run<State, Step>, i: nat, k: nat)
    requires IsRun(IsInit, Next, r) && i < k < |r.states| && BeginsRx(r.steps[i])
    requires forall j :: i < j < k ==> !BeginsRx(r.steps[j])
    ensures Count(RxSteps, r.steps, i + 1, k) <= 6
  {
    StepOf(r, i);
    var keep, rank := (s: State) => true, (s: State) => RxLeft(s.rx);
    forall j | i + 1 <= j < k && keep(r.states[j])
      ensures keep(r.states[j + 1]) && rank(r.states[j + 1]) + (if RxSteps(r.steps[j]) then 1 else 0) <= rank(r.states[j])
    {
      StepOf(r, j);
      RxLeftFalls(r.states[j], r.steps[j]);
    }
    RankFalls(keep, rank, RxSteps, r, i + 1, k);
    RxLeftAtMost(r.states[i + 1].rx);
  }

  lemma RxLeftAtMost(rx: RxPc)
    ensures RxLeft(rx) <= 6
  {
  }
}
