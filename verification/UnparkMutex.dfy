/** futures-executor: the task loop of thread_pool.rs on top of unpark_mutex.rs.

    Any number of tasks, workers and threads that call wakers.  A task object is known by an
    id; the CAS loop of `notify` is one step, its last round. */
module UnparkMutexes {
  import opened Runs

  type TaskId = nat

  datatype Status = WAITING | POLLING | REPOLL | COMPLETE

  /** `UnparkMutex`: its status word, and whether its cell holds the task. */
  datatype Mutex = Mutex(status: Status, inner: bool)

  /** A worker that is running a task; an idle one has no entry. */
  datatype WorkerPc =
    | Start(i: TaskId)         // has received the task; start_poll comes next
    | AtLoop(i: TaskId)        // future.poll comes next
    | Polling(i: TaskId)       // inside future.poll
    | Store(i: TaskId)         // wait: puts the task into the cell
    | TryWait(i: TaskId)       // wait: POLLING -> WAITING
    | Renotified(i: TaskId)    // the CAS failed: asserts REPOLL, stores POLLING
    | TakeBack(i: TaskId)      // takes the task out of the cell again
    | Completing(i: TaskId)    // the future has returned Ready

  /** A thread inside `notify` or `wake_by_ref` after WAITING -> POLLING. */
  datatype NotifierPc = Take(i: TaskId) | Send(i: TaskId)

  /** Where the task object is. */
  datatype Place = Queued | WithNotifier(t: Tid) | Running(w: Tid) | InCell | Finished

  datatype State = State(
    queue: seq<TaskId>,                   // the messages Run(task)
    mutexes: map<TaskId, Mutex>,
    workers: map<Tid, WorkerPc>,
    notifiers: map<Tid, NotifierPc>,
    place: map<TaskId, Place>,
    exposed: set<TaskId>,                 // tasks whose waker their future has seen
    owed: set<TaskId>)                    // tasks notified since their last poll began

  const Init := State([], map[], map[], map[], map[], {}, {})

  ghost predicate IsInit(s: State) { s == Init }

  function SetStatus(s: State, i: TaskId, status: Status): State
    requires i in s.mutexes
  {
    s.(mutexes := s.mutexes[i := s.mutexes[i].(status := status)])
  }

  function SetInner(s: State, i: TaskId, inner: bool): State
    requires i in s.mutexes
  {
    s.(mutexes := s.mutexes[i := s.mutexes[i].(inner := inner)])
  }

  function Work(s: State, w: Tid, pc: WorkerPc): State { s.(workers := s.workers[w := pc]) }

  function MoveTo(s: State, i: TaskId, p: Place): State { s.(place := s.place[i := p]) }

  /** `spawn_obj_ok`: a new mutex, WAITING and empty, although the task is on its way to a worker. */
  function DoSpawn(s: State, i: TaskId): State {
    MoveTo(s, i, Queued).(mutexes := s.mutexes[i := Mutex(WAITING, false)], queue := s.queue + [i])
  }

  function DoReceive(s: State, w: Tid): State
    requires s.queue != []
  {
    Work(MoveTo(s, s.queue[0], Running(w)), w, Start(s.queue[0])).(queue := s.queue[1..])
  }

  function DoStartPoll(s: State, w: Tid): State
    requires w in s.workers && s.workers[w].i in s.mutexes
  {
    Work(SetStatus(s, s.workers[w].i, POLLING), w, AtLoop(s.workers[w].i))
  }

  function DoBeginPoll(s: State, w: Tid): State
    requires w in s.workers
  {
    var i := s.workers[w].i;
    Work(s, w, Polling(i)).(exposed := s.exposed + {i}, owed := s.owed - {i})
  }

  function DoPollReturns(s: State, w: Tid, ready: bool): State
    requires w in s.workers
  {
    Work(s, w, if ready then Completing(s.workers[w].i) else Store(s.workers[w].i))
  }

  function DoStore(s: State, w: Tid): State
    requires w in s.workers && s.workers[w].i in s.mutexes
  {
    Work(SetInner(s, s.workers[w].i, true), w, TryWait(s.workers[w].i))
  }

  function DoTryWait(s: State, w: Tid): State
    requires w in s.workers && s.workers[w].i in s.mutexes
  {
    var i := s.workers[w].i;
    if s.mutexes[i].status == POLLING then MoveTo(SetStatus(s, i, WAITING), i, InCell).(workers := s.workers - {w})
    else Work(s, w, Renotified(i))
  }

  /** `assert_eq!(status, REPOLL)`, then the store. */
  function DoRenotified(s: State, w: Tid): State
    requires w in s.workers && s.workers[w].i in s.mutexes
  {
    Work(SetStatus(s, s.workers[w].i, POLLING), w, TakeBack(s.workers[w].i))
  }

  /** `take().unwrap()` in `wait`. */
  function DoTakeBack(s: State, w: Tid): State
    requires w in s.workers && s.workers[w].i in s.mutexes
  {
    Work(SetInner(s, s.workers[w].i, false), w, AtLoop(s.workers[w].i))
  }

  function DoComplete(s: State, w: Tid): State
    requires w in s.workers && s.workers[w].i in s.mutexes
  {
    var i := s.workers[w].i;
    MoveTo(SetStatus(s, i, COMPLETE), i, Finished).(workers := s.workers - {w})
  }

  function DoNotify(s: State, t: Tid, i: TaskId): State
    requires i in s.mutexes
  {
    var s' := s.(owed := s.owed + {i});
    match s.mutexes[i].status
    case WAITING => MoveTo(SetStatus(s', i, POLLING), i, WithNotifier(t)).(notifiers := s.notifiers[t := Take(i)])
    case POLLING => SetStatus(s', i, REPOLL)
    case _ => s'
  }

  /** `take().unwrap()` in `notify`. */
  function DoTake(s: State, t: Tid): State
    requires t in s.notifiers && s.notifiers[t].i in s.mutexes
  {
    SetInner(s, s.notifiers[t].i, false).(notifiers := s.notifiers[t := Send(s.notifiers[t].i)])
  }

  function DoSend(s: State, t: Tid): State
    requires t in s.notifiers
  {
    MoveTo(s, s.notifiers[t].i, Queued).(queue := s.queue + [s.notifiers[t].i], notifiers := s.notifiers - {t})
  }

  /** `Notify` needs a waker, which a future is first given when it is polled. */
  datatype Step =
    | Spawn(i: TaskId) | Receive(w: Tid) | StartPoll(w: Tid) | BeginPoll(w: Tid) | PollReturns(w: Tid, ready: bool)
    | StoreStep(w: Tid) | TryWaitStep(w: Tid) | RenotifiedStep(w: Tid) | TakeBackStep(w: Tid) | Complete(w: Tid)
    | Notify(t: Tid, i: TaskId) | TakeStep(t: Tid) | SendStep(t: Tid)

  /** A worker at a place of the loop, with a task that has a mutex. */
  predicate HasTask(s: State, w: Tid) { w in s.workers && s.workers[w].i in s.mutexes }

  predicate Enabled(s: State, e: Step) {
    match e
    case Spawn(i) => i !in s.mutexes && i !in s.place
    case Receive(w) => w !in s.workers && s.queue != []
    case StartPoll(w) => HasTask(s, w) && s.workers[w].Start?
    case BeginPoll(w) => HasTask(s, w) && s.workers[w].AtLoop?
    case PollReturns(w, _) => HasTask(s, w) && s.workers[w].Polling?
    case StoreStep(w) => HasTask(s, w) && s.workers[w].Store?
    case TryWaitStep(w) => HasTask(s, w) && s.workers[w].TryWait?
    case RenotifiedStep(w) => HasTask(s, w) && s.workers[w].Renotified?
    case TakeBackStep(w) => HasTask(s, w) && s.workers[w].TakeBack?
    case Complete(w) => HasTask(s, w) && s.workers[w].Completing?
    case Notify(t, i) => i in s.mutexes && i in s.exposed && t !in s.notifiers
    case TakeStep(t) => t in s.notifiers && s.notifiers[t].Take? && s.notifiers[t].i in s.mutexes
    case SendStep(t) => t in s.notifiers && s.notifiers[t].Send?
  }

  function Apply(s: State, e: Step): State
    requires Enabled(s, e)
  {
    match e
    case Spawn(i) => DoSpawn(s, i)
    case Receive(w) => DoReceive(s, w)
    case StartPoll(w) => DoStartPoll(s, w)
    case BeginPoll(w) => DoBeginPoll(s, w)
    case PollReturns(w, ready) => DoPollReturns(s, w, ready)
    case StoreStep(w) => DoStore(s, w)
    case TryWaitStep(w) => DoTryWait(s, w)
    case RenotifiedStep(w) => DoRenotified(s, w)
    case TakeBackStep(w) => DoTakeBack(s, w)
    case Complete(w) => DoComplete(s, w)
    case Notify(t, i) => DoNotify(s, t, i)
    case TakeStep(t) => DoTake(s, t)
    case SendStep(t) => DoSend(s, t)
  }

  ghost predicate Next(s: State, e: Step, s': State) { Enabled(s, e) && s' == Apply(s, e) }

  // ----- the invariant -----

  predicate Busy(status: Status) { status == POLLING || status == REPOLL }

  /** What the position of the worker that runs it says about a mutex. */
  predicate WorkerOk(pc: WorkerPc, m: Mutex, exposed: bool) {
    && (if pc.Start? && !exposed then m.status == WAITING else Busy(m.status))
    && (m.inner <==> pc.TryWait? || pc.Renotified? || pc.TakeBack?)
    && (pc.Renotified? ==> m.status == REPOLL)
    && (!pc.Start? && !pc.AtLoop? ==> exposed)
  }

  /** The task is in the place said, and nowhere else that place rules out. */
  predicate TaskOk(i: TaskId, p: Place, m: Mutex, exposed: bool, workers: map<Tid, WorkerPc>, notifiers: map<Tid, NotifierPc>) {
    match p
    case Queued => !m.inner && if exposed then Busy(m.status) else m.status == WAITING
    case WithNotifier(t) => Busy(m.status) && exposed && t in notifiers && notifiers[t].i == i && (m.inner <==> notifiers[t].Take?)
    case Running(w) => w in workers && workers[w].i == i && WorkerOk(workers[w], m, exposed)
    case InCell => m == Mutex(WAITING, true) && exposed
    case Finished => m == Mutex(COMPLETE, false) && exposed
  }

  ghost predicate TasksOk(s: State) {
    && s.mutexes.Keys == s.place.Keys
    && forall i :: i in s.mutexes ==> TaskOk(i, s.place[i], s.mutexes[i], i in s.exposed, s.workers, s.notifiers)
  }

  ghost predicate QueueOk(queue: seq<TaskId>, place: map<TaskId, Place>) {
    && (forall a, b :: 0 <= a < b < |queue| ==> queue[a] != queue[b])
    && (forall k :: 0 <= k < |queue| ==> queue[k] in place && place[queue[k]] == Queued)
    && (forall i :: i in place && place[i] == Queued ==> i in queue)
  }

  /** Whoever has a task object is where the task is. */
  ghost predicate HoldersOk(s: State) {
    && (forall w :: w in s.workers ==> s.workers[w].i in s.place && s.place[s.workers[w].i] == Running(w))
    && (forall t :: t in s.notifiers ==> s.notifiers[t].i in s.place && s.place[s.notifiers[t].i] == WithNotifier(t))
    && s.exposed <= s.mutexes.Keys && s.owed <= s.exposed
  }

  /** The task will begin another poll. */
  predicate WillPoll(p: Place, m: Mutex, workers: map<Tid, WorkerPc>) {
    match p
    case Queued => true
    case WithNotifier(_) => true
    case Running(w) => w in workers && !workers[w].Completing?
                       && (m.status == REPOLL || workers[w].Start? || workers[w].AtLoop? || workers[w].Renotified? || workers[w].TakeBack?)
    case InCell => false
    case Finished => false
  }

  /** Its future has completed. */
  predicate AtEnd(p: Place, workers: map<Tid, WorkerPc>) {
    p == Finished || (p.Running? && p.w in workers && workers[p.w].Completing?)
  }

  predicate Served(p: Place, m: Mutex, workers: map<Tid, WorkerPc>) { WillPoll(p, m, workers) || AtEnd(p, workers) }

  ghost predicate OwedOk(s: State) {
    forall i :: i in s.owed ==> i in s.mutexes && i in s.place && Served(s.place[i], s.mutexes[i], s.workers)
  }

  ghost predicate Inv(s: State) { TasksOk(s) && QueueOk(s.queue, s.place) && HoldersOk(s) && OwedOk(s) }

  // ----- every step keeps it -----

  /** Nothing about any other task than i has changed. */
  ghost predicate OnlyTask(s: State, s': State, i: TaskId) {
    && s'.mutexes.Keys - {i} == s.mutexes.Keys - {i} && s'.place.Keys - {i} == s.place.Keys - {i}
    && s'.exposed - {i} == s.exposed - {i} && s'.owed - {i} == s.owed - {i}
    && (forall j :: j in s.mutexes && j in s'.mutexes && j != i ==> s'.mutexes[j] == s.mutexes[j])
    && (forall j :: j in s.place && j in s'.place && j != i ==> s'.place[j] == s.place[j])
    && (forall w :: w in s.workers && s.workers[w].i != i ==> w in s'.workers && s'.workers[w] == s.workers[w])
    && (forall w :: w in s'.workers && s'.workers[w].i != i ==> w in s.workers && s.workers[w] == s'.workers[w])
    && (forall t :: t in s.notifiers && s.notifiers[t].i != i ==> t in s'.notifiers && s'.notifiers[t] == s.notifiers[t])
    && (forall t :: t in s'.notifiers && s'.notifiers[t].i != i ==> t in s.notifiers && s.notifiers[t] == s'.notifiers[t])
  }

  /** The invariant as far as it is about i. */
  ghost predicate Local(s: State, i: TaskId) {
    && i in s.mutexes && i in s.place && TaskOk(i, s.place[i], s.mutexes[i], i in s.exposed, s.workers, s.notifiers)
    && (forall w :: w in s.workers && s.workers[w].i == i ==> s.place[i] == Running(w))
    && (forall t :: t in s.notifiers && s.notifiers[t].i == i ==> s.place[i] == WithNotifier(t))
    && (i in s.owed ==> i in s.exposed && Served(s.place[i], s.mutexes[i], s.workers))
  }

  lemma OthersStay(s: State, s': State, i: TaskId, j: TaskId)
    requires TasksOk(s) && OwedOk(s) && OnlyTask(s, s', i) && j != i && j in s'.mutexes
    ensures j in s.mutexes && j in s'.place && s'.place[j] == s.place[j] && s'.mutexes[j] == s.mutexes[j]
    ensures TaskOk(j, s'.place[j], s'.mutexes[j], j in s'.exposed, s'.workers, s'.notifiers)
    ensures j in s'.owed ==> Served(s'.place[j], s'.mutexes[j], s'.workers)
  {
    assert j in s'.mutexes.Keys - {i};
    assert j in s'.exposed <==> j in s'.exposed - {i};
    assert j in s.exposed <==> j in s.exposed - {i};
    assert j in s'.owed <==> j in s'.owed - {i};
    assert j in s.place.Keys - {i};
    assert TaskOk(j, s.place[j], s.mutexes[j], j in s.exposed, s.workers, s.notifiers);
  }

  lemma HoldersStay(s: State, s': State, i: TaskId)
    requires HoldersOk(s) && OnlyTask(s, s', i) && Local(s', i)
    ensures HoldersOk(s')
  {
    forall w | w in s'.workers ensures s'.workers[w].i in s'.place && s'.place[s'.workers[w].i] == Running(w) {
      if s'.workers[w].i != i { assert s.workers[w].i in s.place.Keys - {i}; }
    }
    forall t | t in s'.notifiers ensures s'.notifiers[t].i in s'.place && s'.place[s'.notifiers[t].i] == WithNotifier(t) {
      if s'.notifiers[t].i != i { assert s.notifiers[t].i in s.place.Keys - {i}; }
    }
    forall j | j in s'.exposed ensures j in s'.mutexes.Keys {
      if j != i { assert j in s.exposed - {i}; assert j in s.mutexes.Keys - {i}; }
    }
    forall j | j in s'.owed ensures j in s'.exposed {
      if j != i { assert j in s.owed - {i}; assert j in s.exposed - {i}; }
    }
  }

  lemma Frame(s: State, s': State, i: TaskId)
    requires Inv(s) && OnlyTask(s, s', i) && Local(s', i) && QueueOk(s'.queue, s'.place)
    ensures Inv(s')
  {
    HoldersStay(s, s', i);
    forall j | j in s'.mutexes
      ensures j in s'.place && TaskOk(j, s'.place[j], s'.mutexes[j], j in s'.exposed, s'.workers, s'.notifiers)
      ensures j in s'.owed ==> Served(s'.place[j], s'.mutexes[j], s'.workers)
    {
      if j != i { OthersStay(s, s', i, j); }
    }
    assert s'.mutexes.Keys == (s'.mutexes.Keys - {i}) + {i} && s'.place.Keys == (s'.place.Keys - {i}) + {i};
  }

  lemma QueueStays(queue: seq<TaskId>, place: map<TaskId, Place>, i: TaskId, p: Place)
    requires QueueOk(queue, place) && i in place && place[i] != Queued && p != Queued
    ensures QueueOk(queue, place[i := p])
  {
  }

  lemma QueuePush(queue: seq<TaskId>, place: map<TaskId, Place>, i: TaskId)
    requires QueueOk(queue, place) && (i in place ==> place[i] != Queued)
    ensures QueueOk(queue + [i], place[i := Queued])
  {
    var place' := place[i := Queued];
    forall j | j in place' && place'[j] == Queued ensures j in queue + [i] {
      if j == i { assert (queue + [i])[|queue|] == i; }
    }
  }

  lemma QueuePop(queue: seq<TaskId>, place: map<TaskId, Place>, p: Place)
    requires QueueOk(queue, place) && queue != [] && p != Queued
    ensures QueueOk(queue[1..], place[queue[0] := p])
  {
    var i := queue[0];
    forall j | j in place && j != i && place[j] == Queued ensures j in queue[1..] {
      var k :| 0 <= k < |queue| && queue[k] == j;
      assert queue[1..][k - 1] == j;
    }
    forall k | 0 <= k < |queue[1..]| ensures queue[1..][k] in place && queue[1..][k] != i && place[queue[1..][k]] == Queued {
      assert queue[1..][k] == queue[k + 1];
    }
  }

  lemma KeepsSpawn(s: State, i: TaskId)
    requires Inv(s) && Enabled(s, Spawn(i))
    ensures Inv(DoSpawn(s, i))
  {
    QueuePush(s.queue, s.place, i);
    Frame(s, DoSpawn(s, i), i);
  }

  lemma ReceiveIsLocal(s: State, w: Tid)
    requires Inv(s) && Enabled(s, Receive(w))
    ensures Local(DoReceive(s, w), s.queue[0]) && OnlyTask(s, DoReceive(s, w), s.queue[0])
  {
    var i := s.queue[0];
    assert s.place[i] == Queued;
    assert TaskOk(i, s.place[i], s.mutexes[i], i in s.exposed, s.workers, s.notifiers);
  }

  lemma KeepsReceive(s: State, w: Tid)
    requires Inv(s) && Enabled(s, Receive(w))
    ensures Inv(DoReceive(s, w))
  {
    ReceiveIsLocal(s, w);
    QueuePop(s.queue, s.place, Running(w));
    Frame(s, DoReceive(s, w), s.queue[0]);
  }

  lemma KeepsWork(s: State, e: Step)
    requires Inv(s) && Enabled(s, e)
    requires e.StartPoll? || e.BeginPoll? || e.PollReturns? || e.StoreStep? || e.RenotifiedStep? || e.TakeBackStep?
    ensures Inv(Apply(s, e))
  {
    var i := s.workers[e.w].i;
    assert s.place[i] == Running(e.w);
    assert TaskOk(i, s.place[i], s.mutexes[i], i in s.exposed, s.workers, s.notifiers);
    WorkIsLocal(s, e);
    Frame(s, Apply(s, e), i);
  }

  lemma WorkIsLocal(s: State, e: Step)
    requires Enabled(s, e)
    requires e.StartPoll? || e.BeginPoll? || e.PollReturns? || e.StoreStep? || e.RenotifiedStep? || e.TakeBackStep?
    requires Local(s, s.workers[e.w].i)
    ensures Local(Apply(s, e), s.workers[e.w].i) && OnlyTask(s, Apply(s, e), s.workers[e.w].i)
    ensures Apply(s, e).queue == s.queue && Apply(s, e).place == s.place
  {
    match e
    case StartPoll(w) => case BeginPoll(w) => case PollReturns(w, _) => case StoreStep(w) => case RenotifiedStep(w) => case TakeBackStep(w) =>
  }

  lemma EndIsLocal(s: State, e: Step)
    requires Enabled(s, e) && (e.TryWaitStep? || e.Complete?)
    requires Local(s, s.workers[e.w].i)
    ensures Local(Apply(s, e), s.workers[e.w].i) && OnlyTask(s, Apply(s, e), s.workers[e.w].i)
  {
    match e
    case TryWaitStep(w) => case Complete(w) =>
  }

  lemma WorkersTaskIsLocal(s: State, w: Tid)
    requires Inv(s) && HasTask(s, w)
    ensures Local(s, s.workers[w].i) && s.place[s.workers[w].i] == Running(w)
  {
    var i := s.workers[w].i;
    assert TaskOk(i, s.place[i], s.mutexes[i], i in s.exposed, s.workers, s.notifiers);
  }

  lemma KeepsTryWait(s: State, w: Tid)
    requires Inv(s) && Enabled(s, TryWaitStep(w))
    ensures Inv(DoTryWait(s, w))
  {
    WorkersTaskIsLocal(s, w);
    EndIsLocal(s, TryWaitStep(w));
    QueueStays(s.queue, s.place, s.workers[w].i, InCell);
    Frame(s, DoTryWait(s, w), s.workers[w].i);
  }

  lemma KeepsComplete(s: State, w: Tid)
    requires Inv(s) && Enabled(s, Complete(w))
    ensures Inv(DoComplete(s, w))
  {
    WorkersTaskIsLocal(s, w);
    EndIsLocal(s, Complete(w));
    QueueStays(s.queue, s.place, s.workers[w].i, Finished);
    Frame(s, DoComplete(s, w), s.workers[w].i);
  }

  lemma NotifyIsLocal(s: State, t: Tid, i: TaskId)
    requires Enabled(s, Notify(t, i)) && Local(s, i)
    ensures Local(DoNotify(s, t, i), i) && OnlyTask(s, DoNotify(s, t, i), i)
  {
    match s.mutexes[i].status
    case WAITING => case POLLING => case REPOLL => case COMPLETE =>
  }

  lemma TaskIsLocal(s: State, i: TaskId)
    requires Inv(s) && i in s.mutexes
    ensures Local(s, i)
  {
    assert TaskOk(i, s.place[i], s.mutexes[i], i in s.exposed, s.workers, s.notifiers);
  }

  lemma KeepsNotify(s: State, t: Tid, i: TaskId)
    requires Inv(s) && Enabled(s, Notify(t, i))
    ensures Inv(DoNotify(s, t, i))
  {
    TaskIsLocal(s, i);
    NotifyIsLocal(s, t, i);
    if s.mutexes[i].status == WAITING { QueueStays(s.queue, s.place, i, WithNotifier(t)); }
    Frame(s, DoNotify(s, t, i), i);
  }

  lemma KeepsTake(s: State, t: Tid)
    requires Inv(s) && Enabled(s, TakeStep(t))
    ensures Inv(DoTake(s, t))
  {
    var i := s.notifiers[t].i;
    assert s.place[i] == WithNotifier(t);
    assert TaskOk(i, s.place[i], s.mutexes[i], i in s.exposed, s.workers, s.notifiers);
    Frame(s, DoTake(s, t), i);
  }

  lemma KeepsSend(s: State, t: Tid)
    requires Inv(s) && Enabled(s, SendStep(t))
    ensures Inv(DoSend(s, t))
  {
    var i := s.notifiers[t].i;
    assert s.place[i] == WithNotifier(t);
    assert TaskOk(i, s.place[i], s.mutexes[i], i in s.exposed, s.workers, s.notifiers);
    QueuePush(s.queue, s.place, i);
    Frame(s, DoSend(s, t), i);
  }

  lemma KeepsInv(s: State, e: Step)
    requires Inv(s) && Enabled(s, e)
    ensures Inv(Apply(s, e))
  {
    match e
    case Spawn(i) => KeepsSpawn(s, i);
    case Receive(w) => KeepsReceive(s, w);
    case TryWaitStep(w) => KeepsTryWait(s, w);
    case Complete(w) => KeepsComplete(s, w);
    case Notify(t, i) => KeepsNotify(s, t, i);
    case TakeStep(t) => KeepsTake(s, t);
    case SendStep(t) => KeepsSend(s, t);
    case _ => KeepsWork(s, e);
  }

  lemma InvInEveryState(r: Run<State, Step>, k: nat)
    requires IsRun(IsInit, Next, r) && k < |r.states|
    ensures Inv(r.states[k])
  {
    forall s, e, s' | Inv(s) && Next(s, e, s') ensures Inv(s') { KeepsInv(s, e); }
    Invariance(IsInit, Next, Inv, r, k);
  }

  // ----- what the source promises -----

  /** A task object is in exactly one place: if in the run queue, then once and with no worker,
      notifier or cell; if with a worker, then with no other and not in the queue; and so on. */
  lemma OnePlace(r: Run<State, Step>, k: nat, i: TaskId)
    requires IsRun(IsInit, Next, r) && k < |r.states| && i in r.states[k].mutexes
    ensures var s := r.states[k];
            && i in s.place
            && (i in s.queue <==> s.place[i] == Queued)
            && (forall a, b :: 0 <= a < |s.queue| && 0 <= b < |s.queue| && s.queue[a] == i && s.queue[b] == i ==> a == b)
            && (forall w :: (w in s.workers && s.workers[w].i == i) <==> s.place[i] == Running(w))
            && (forall t :: (t in s.notifiers && s.notifiers[t].i == i) <==> s.place[i] == WithNotifier(t))
            && (s.place[i] == InCell ==> s.mutexes[i] == Mutex(WAITING, true))
            && (s.place[i] == Finished ==> s.mutexes[i] == Mutex(COMPLETE, false))
  {
    InvInEveryState(r, k);
    var s := r.states[k];
    assert TaskOk(i, s.place[i], s.mutexes[i], i in s.exposed, s.workers, s.notifiers);
  }

  /** Two workers never run, and so never poll, the same task. */
  lemma NeverPolledTwice(r: Run<State, Step>, k: nat, w: Tid, v: Tid)
    requires IsRun(IsInit, Next, r) && k < |r.states|
    requires w in r.states[k].workers && v in r.states[k].workers && r.states[k].workers[w].i == r.states[k].workers[v].i
    ensures w == v
  {
    InvInEveryState(r, k);
  }

  /** The `assert_eq!` of `wait` and both unwraps hold, and `start_poll` is called only where
      its safety comment allows: before the waker is out, or in POLLING or REPOLL. */
  lemma AssertsHold(r: Run<State, Step>, k: nat, w: Tid)
    requires IsRun(IsInit, Next, r) && k < |r.states|
    ensures var s := r.states[k];
            && (w in s.workers ==>
                  var pc, i := s.workers[w], s.workers[w].i;
                  && HasTask(s, w)
                  && (pc.Renotified? ==> s.mutexes[i].status == REPOLL)
                  && (pc.TakeBack? ==> s.mutexes[i].inner)
                  && (pc.Start? ==> i !in s.exposed || Busy(s.mutexes[i].status))
                  && (pc.TryWait? || pc.Completing? ==> Busy(s.mutexes[i].status)))
            && (w in s.notifiers && s.notifiers[w].Take? ==> s.notifiers[w].i in s.mutexes && s.mutexes[s.notifiers[w].i].inner)
  {
    InvInEveryState(r, k);
    var s := r.states[k];
    if w in s.workers {
      var i := s.workers[w].i;
      assert s.place[i] == Running(w) && i in s.place.Keys;
      assert TaskOk(i, s.place[i], s.mutexes[i], i in s.exposed, s.workers, s.notifiers);
    }
    if w in s.notifiers {
      var i := s.notifiers[w].i;
      assert s.place[i] == WithNotifier(w) && i in s.place.Keys;
      assert TaskOk(i, s.place[i], s.mutexes[i], i in s.exposed, s.workers, s.notifiers);
    }
  }

  /** In step k a worker begins to poll i. */
  predicate Polls(r: Run<State, Step>, k: nat, i: TaskId)
    requires |r.states| == |r.steps| + 1 && k < |r.steps|
  {
    r.steps[k].BeginPoll? && r.steps[k].w in r.states[k].workers && r.states[k].workers[r.steps[k].w].i == i
  }

  lemma OwedStays(s: State, e: Step, i: TaskId)
    requires Enabled(s, e) && i in s.owed && !(e.BeginPoll? && s.workers[e.w].i == i)
    ensures i in Apply(s, e).owed
  {
    match e
    case Spawn(_) => case Receive(_) => case StartPoll(_) => case BeginPoll(_) => case PollReturns(_, _) => case StoreStep(_) =>
    case TryWaitStep(_) => case RenotifiedStep(_) => case TakeBackStep(_) => case Complete(_) => case Notify(_, _) =>
    case TakeStep(_) => case SendStep(_) =>
  }

  lemma {:induction false} OwedUntilPolled(r: Run<State, Step>, n: nat, j: nat, t: Tid, i: TaskId)
    requires IsRun(IsInit, Next, r) && n < j < |r.states|
    requires r.steps[n] == Notify(t, i)
    requires forall k :: n < k < j ==> !Polls(r, k, i)
    ensures i in r.states[j].owed
    decreases j
  {
    assert Next(r.states[j - 1], r.steps[j - 1], r.states[j - 1 + 1]);
    if j - 1 > n {
      OwedUntilPolled(r, n, j - 1, t, i);
      assert !Polls(r, j - 1, i);
      OwedStays(r.states[j - 1], r.steps[j - 1], i);
    }
  }

  /** The step k is the answer Ready of the future of i. */
  predicate AnswersReady(r: Run<State, Step>, k: nat, i: TaskId)
    requires |r.states| == |r.steps| + 1 && k < |r.steps|
  {
    r.steps[k].PollReturns? && r.steps[k].ready && r.steps[k].w in r.states[k].workers && r.states[k].workers[r.steps[k].w].i == i
  }

  predicate Ended(s: State, i: TaskId) { i in s.place && AtEnd(s.place[i], s.workers) }

  /** The task a step is about. */
  function TaskOf(s: State, e: Step): TaskId
    requires Enabled(s, e)
  {
    match e
    case Spawn(i) => i
    case Receive(_) => s.queue[0]
    case Notify(_, i) => i
    case TakeStep(t) => s.notifiers[t].i
    case SendStep(t) => s.notifiers[t].i
    case _ => s.workers[e.w].i
  }

  lemma LeavesOther(s: State, e: Step, i: TaskId)
    requires Enabled(s, e) && TaskOf(s, e) != i
    ensures var s' := Apply(s, e);
            && (i in s'.place <==> i in s.place) && (i in s'.mutexes <==> i in s.mutexes)
            && (i in s.place ==> s'.place[i] == s.place[i]) && (i in s.mutexes ==> s'.mutexes[i] == s.mutexes[i])
  {
    match e
    case Spawn(_) => case Receive(_) => case StartPoll(_) => case BeginPoll(_) => case PollReturns(_, _) => case StoreStep(_) =>
    case TryWaitStep(_) => case RenotifiedStep(_) => case TakeBackStep(_) => case Complete(_) => case Notify(_, _) =>
    case TakeStep(_) => case SendStep(_) =>
  }

  lemma LeavesWorker(s: State, e: Step, w: Tid)
    requires Enabled(s, e) && w in s.workers && TaskOf(s, e) != s.workers[w].i
    ensures w in Apply(s, e).workers && Apply(s, e).workers[w] == s.workers[w]
  {
    match e
    case Spawn(_) => case Receive(_) => case StartPoll(_) => case BeginPoll(_) => case PollReturns(_, _) => case StoreStep(_) =>
    case TryWaitStep(_) => case RenotifiedStep(_) => case TakeBackStep(_) => case Complete(_) => case Notify(_, _) =>
    case TakeStep(_) => case SendStep(_) =>
  }

  /** A step about another task leaves i and whoever runs it alone. */
  lemma LeavesTask(s: State, e: Step, i: TaskId)
    requires Inv(s) && Enabled(s, e) && TaskOf(s, e) != i
    ensures var s' := Apply(s, e);
            && (i in s.place <==> i in s'.place) && (i in s.mutexes <==> i in s'.mutexes)
            && (i in s.place ==> s'.place[i] == s.place[i] && i in s.mutexes && s'.mutexes[i] == s.mutexes[i])
            && (i in s.place && s.place[i].Running? ==> s.place[i].w in s.workers && s.place[i].w in s'.workers
                                                        && s'.workers[s.place[i].w] == s.workers[s.place[i].w])
  {
    LeavesOther(s, e, i);
    if i in s.place {
      assert i in s.mutexes.Keys;
      assert TaskOk(i, s.place[i], s.mutexes[i], i in s.exposed, s.workers, s.notifiers);
      if s.place[i].Running? { LeavesWorker(s, e, s.place[i].w); }
    }
  }

  lemma EndsNow(s: State, e: Step, i: TaskId)
    requires Inv(s) && Enabled(s, e) && !Ended(s, i) && Ended(Apply(s, e), i)
    ensures e.PollReturns? && e.ready && s.workers[e.w].i == i
  {
    if TaskOf(s, e) != i {
      LeavesTask(s, e, i);
    } else if i in s.mutexes {
      TaskIsLocal(s, i);
      OwnEndsNow(s, e, i);
    }
  }

  lemma OwnEndsNow(s: State, e: Step, i: TaskId)
    requires Enabled(s, e) && TaskOf(s, e) == i && Local(s, i) && (e.Receive? ==> s.place[i] == Queued)
    requires !Ended(s, i) && Ended(Apply(s, e), i)
    ensures e.PollReturns? && e.ready
  {
    match e
    case Spawn(_) => case Receive(_) => case StartPoll(_) => case BeginPoll(_) => case PollReturns(_, _) => case StoreStep(_) =>
    case TryWaitStep(_) => case RenotifiedStep(_) => case TakeBackStep(_) => case Complete(_) => case Notify(_, _) =>
    case TakeStep(_) => case SendStep(_) =>
  }

  lemma OwnEndStays(s: State, e: Step, i: TaskId)
    requires Enabled(s, e) && TaskOf(s, e) == i && Local(s, i) && (e.Receive? ==> s.place[i] == Queued)
    requires Ended(s, i)
    ensures Ended(Apply(s, e), i) && !e.BeginPoll?
  {
    match e
    case Spawn(_) => case Receive(_) => case StartPoll(_) => case BeginPoll(_) => case PollReturns(_, _) => case StoreStep(_) =>
    case TryWaitStep(_) => case RenotifiedStep(_) => case TakeBackStep(_) => case Complete(_) => case Notify(_, _) =>
    case TakeStep(_) => case SendStep(_) =>
  }

  lemma EndStays(s: State, e: Step, i: TaskId)
    requires Inv(s) && Enabled(s, e) && Ended(s, i)
    ensures Ended(Apply(s, e), i) && !(e.BeginPoll? && s.workers[e.w].i == i)
  {
    TaskIsLocal(s, i);
    if TaskOf(s, e) != i { LeavesTask(s, e, i); } else { OwnEndStays(s, e, i); }
  }

  /** A task is completed only by a future that has answered Ready, the n-th step ... */
  lemma EndsOnlyWhenReady(r: Run<State, Step>, k: nat, i: TaskId) returns (n: nat)
    requires IsRun(IsInit, Next, r) && k < |r.states| && Ended(r.states[k], i)
    ensures n < k && AnswersReady(r, n, i)
  {
    n := Origin((s: State) => Ended(s, i), r, 0, k);
    assert Next(r.states[n], r.steps[n], r.states[n + 1]);
    InvInEveryState(r, n);
    EndsNow(r.states[n], r.steps[n], i);
  }

  /** ... and one that has is, and is never polled again. */
  lemma ReadyIsFinal(r: Run<State, Step>, n: nat, k: nat, i: TaskId)
    requires IsRun(IsInit, Next, r) && n < k < |r.states| && AnswersReady(r, n, i)
    ensures Ended(r.states[k], i) && (k < |r.steps| ==> !Polls(r, k, i))
  {
    assert Next(r.states[n], r.steps[n], r.states[n + 1]);
    InvInEveryState(r, n);
    InvInEveryState(r, k);
    var keep := (s: State) => Ended(s, i);
    forall j | n + 1 <= j < k && keep(r.states[j]) ensures keep(r.states[j + 1]) {
      assert Next(r.states[j], r.steps[j], r.states[j + 1]);
      InvInEveryState(r, j);
      EndStays(r.states[j], r.steps[j], i);
    }
    Persistence(keep, r, n + 1, k);
    if k < |r.steps| {
      assert Next(r.states[k], r.steps[k], r.states[k + 1]);
      EndStays(r.states[k], r.steps[k], i);
    }
  }

  /** No notify is lost: as long as no poll of the task has begun since, one will, or the
      future has answered Ready ... */
  lemma NotifyIsNotLost(r: Run<State, Step>, n: nat, j: nat, t: Tid, i: TaskId)
    requires IsRun(IsInit, Next, r) && n < j < |r.states|
    requires r.steps[n] == Notify(t, i)
    requires forall k :: n < k < j ==> !Polls(r, k, i)
    ensures var s := r.states[j];
            && i in s.mutexes && i in s.place
            && (WillPoll(s.place[i], s.mutexes[i], s.workers) || exists a :: 0 <= a < j && AnswersReady(r, a, i))
  {
    OwedUntilPolled(r, n, j, t, i);
    InvInEveryState(r, j);
    var s := r.states[j];
    if !WillPoll(s.place[i], s.mutexes[i], s.workers) {
      var a := EndsOnlyWhenReady(r, j, i);
    }
  }

  /** ... so a notified task that has gone to sleep again has been polled in between. */
  lemma SleepsOnlyAfterPoll(r: Run<State, Step>, n: nat, j: nat, t: Tid, i: TaskId)
    requires IsRun(IsInit, Next, r) && n < j < |r.states|
    requires r.steps[n] == Notify(t, i)
    requires i in r.states[j].place && r.states[j].place[i] == InCell
    ensures exists k :: n < k < j && Polls(r, k, i)
  {
    if forall k :: n < k < j ==> !Polls(r, k, i) {
      OwedUntilPolled(r, n, j, t, i);
      InvInEveryState(r, j);
    }
  }

  predicate Notifies(e: Step, i: TaskId) { e.Notify? && e.i == i }

  /** Unless i is notified, no poll of it will begin, but for the one about to begin (`next`). */
  predicate NoMore(s: State, i: TaskId, next: bool) {
    && i in s.place && i in s.mutexes
    && match s.place[i]
       case Running(w) => w in s.workers && !s.workers[w].Start? && !s.workers[w].Renotified?
                          && (s.workers[w].AtLoop? || s.workers[w].TakeBack? ==> next) && s.mutexes[i].status == POLLING
       case InCell => true
       case Finished => true
       case _ => false
  }

  lemma OwnNoMore(s: State, e: Step, i: TaskId, next: bool)
    requires Enabled(s, e) && TaskOf(s, e) == i && Local(s, i) && HoldersOk(s) && QueueOk(s.queue, s.place)
    requires NoMore(s, i, next) && !Notifies(e, i)
    ensures NoMore(Apply(s, e), i, next)
    ensures e.BeginPoll? ==> next && NoMore(Apply(s, e), i, false)
  {
    match e
    case Spawn(_) => case Receive(_) => case StartPoll(_) => case BeginPoll(_) => case PollReturns(_, _) => case StoreStep(_) =>
    case TryWaitStep(_) => case RenotifiedStep(_) => case TakeBackStep(_) => case Complete(_) =>
    case TakeStep(_) => case SendStep(_) =>
  }

  lemma NoMoreStays(s: State, e: Step, i: TaskId, next: bool)
    requires Inv(s) && Enabled(s, e) && NoMore(s, i, next) && !Notifies(e, i)
    ensures NoMore(Apply(s, e), i, next)
    ensures e.BeginPoll? && s.workers[e.w].i == i ==> next && NoMore(Apply(s, e), i, false)
  {
    TaskIsLocal(s, i);
    if TaskOf(s, e) != i { LeavesTask(s, e, i); } else { OwnNoMore(s, e, i, next); }
  }

  lemma NoMoreAt(r: Run<State, Step>, i: TaskId, k: nat, l: nat, next: bool)
    requires IsRun(IsInit, Next, r) && k <= l < |r.states| && NoMore(r.states[k], i, next)
    requires forall n :: k <= n < l ==> !Notifies(r.steps[n], i)
    ensures NoMore(r.states[l], i, next)
    ensures l < |r.steps| && Polls(r, l, i) ==> next && NoMore(r.states[l + 1], i, false)
  {
    var keep := (s: State) => NoMore(s, i, next);
    forall j | k <= j < l && keep(r.states[j]) ensures keep(r.states[j + 1]) {
      assert Next(r.states[j], r.steps[j], r.states[j + 1]);
      InvInEveryState(r, j);
      NoMoreStays(r.states[j], r.steps[j], i, next);
    }
    Persistence(keep, r, k, l);
    if l < |r.steps| && Polls(r, l, i) {
      assert Next(r.states[l], r.steps[l], r.states[l + 1]);
      InvInEveryState(r, l);
      NoMoreStays(r.states[l], r.steps[l], i, next);
    }
  }

  /** The m-th step drops the requests for another poll of i: `start_poll`, or the store in `wait`. */
  predicate Clears(r: Run<State, Step>, m: nat, i: TaskId)
    requires |r.states| == |r.steps| + 1 && m < |r.steps|
  {
    && (r.steps[m].StartPoll? || r.steps[m].RenotifiedStep?)
    && r.steps[m].w in r.states[m].workers && r.states[m].workers[r.steps[m].w].i == i
  }

  lemma ClearedNow(s: State, e: Step)
    requires Inv(s) && Enabled(s, e) && (e.StartPoll? || e.RenotifiedStep?)
    ensures NoMore(Apply(s, e), s.workers[e.w].i, true)
  {
    WorkersTaskIsLocal(s, e.w);
  }

  /** And no poll is for nothing: after the requests were dropped in step m, a second poll of the
      task begins only if it has been notified since. */
  lemma PolledAgainOnlyIfNotified(r: Run<State, Step>, m: nat, k: nat, l: nat, i: TaskId)
    requires IsRun(IsInit, Next, r) && m < k < l < |r.steps|
    requires Clears(r, m, i) && Polls(r, k, i) && Polls(r, l, i)
    ensures exists n :: m < n < l && Notifies(r.steps[n], i)
  {
    if forall n :: m < n < l ==> !Notifies(r.steps[n], i) {
      assert Next(r.states[m], r.steps[m], r.states[m + 1]);
      InvInEveryState(r, m);
      ClearedNow(r.states[m], r.steps[m]);
      NoMoreAt(r, i, m + 1, k, true);
      assert !Notifies(r.steps[k], i);
      NoMoreAt(r, i, k + 1, l, false);
    }
  }

  // ----- the run queue -----

  /** What a step puts into the run queue ... */
  function Sent(s: State, e: Step): seq<TaskId> {
    match e
    case Spawn(i) => [i]
    case SendStep(t) => if t in s.notifiers then [s.notifiers[t].i] else []
    case _ => []
  }

  /** ... and what a worker receives in it. */
  function Received(e: Step, s': State): seq<TaskId> {
    if e.Receive? && e.w in s'.workers then [s'.workers[e.w].i] else []
  }

  ghost function AllSent(r: Run<State, Step>, k: nat): seq<TaskId>
    requires |r.states| == |r.steps| + 1 && k < |r.states|
  {
    if k == 0 then [] else AllSent(r, k - 1) + Sent(r.states[k - 1], r.steps[k - 1])
  }

  ghost function AllReceived(r: Run<State, Step>, k: nat): seq<TaskId>
    requires |r.states| == |r.steps| + 1 && k < |r.states|
  {
    if k == 0 then [] else AllReceived(r, k - 1) + Received(r.steps[k - 1], r.states[k])
  }

  lemma QueueStep(s: State, e: Step, got: seq<TaskId>, sent: seq<TaskId>)
    requires Enabled(s, e) && got + s.queue == sent
    ensures got + Received(e, Apply(s, e)) + Apply(s, e).queue == sent + Sent(s, e)
  {
    match e
    case Receive(w) => assert [s.queue[0]] + s.queue[1..] == s.queue;
    case Spawn(_) => case StartPoll(_) => case BeginPoll(_) => case PollReturns(_, _) => case StoreStep(_) =>
    case TryWaitStep(_) => case RenotifiedStep(_) => case TakeBackStep(_) => case Complete(_) => case Notify(_, _) =>
    case TakeStep(_) => case SendStep(_) =>
  }

  /** Tasks are received once each, in the order in which they were sent to the pool. */
  lemma {:induction false} TasksRunInOrder(r: Run<State, Step>, k: nat)
    requires IsRun(IsInit, Next, r) && k < |r.states|
    ensures AllReceived(r, k) + r.states[k].queue == AllSent(r, k)
  {
    if k > 0 {
      TasksRunInOrder(r, k - 1);
      assert Next(r.states[k - 1], r.steps[k - 1], r.states[k - 1 + 1]);
      QueueStep(r.states[k - 1], r.steps[k - 1], AllReceived(r, k - 1), AllSent(r, k - 1));
    }
  }

  // ----- the object -----

  ghost predicate Reachable(s: State) { Reaches<State, Step>(IsInit, Next, s) }

  lemma Onwards(s: State, e: Step)
    requires Reachable(s) && Enabled(s, e)
    ensures Reachable(Apply(s, e))
  {
    NextReached<State, Step>(IsInit, Next, s, e, Apply(s, e));
  }

  lemma ReachableAsserts(s: State, w: Tid)
    requires Reachable(s)
    ensures w in s.workers && s.workers[w].Renotified? ==> s.workers[w].i in s.mutexes && s.mutexes[s.workers[w].i].status == REPOLL
    ensures w in s.workers && s.workers[w].TakeBack? ==> s.workers[w].i in s.mutexes && s.mutexes[s.workers[w].i].inner
    ensures w in s.notifiers && s.notifiers[w].Take? ==> s.notifiers[w].i in s.mutexes && s.mutexes[s.notifiers[w].i].inner
  {
    var r: Run<State, Step> :| IsRun(IsInit, Next, r) && r.states[|r.steps|] == s;
    AssertsHold(r, |r.steps|, w);
  }

  /** The thread pool with the mutexes of its tasks. */
  class ThreadPool {
    var queue: seq<TaskId>
    var mutexes: map<TaskId, Mutex>
    var workers: map<Tid, WorkerPc>
    var notifiers: map<Tid, NotifierPc>
    ghost var place: map<TaskId, Place>
    ghost var exposed: set<TaskId>
    ghost var owed: set<TaskId>

    ghost function View(): State
      reads this
    {
      State(queue, mutexes, workers, notifiers, place, exposed, owed)
    }

    ghost predicate Valid()
      reads this
    {
      Reachable(View())
    }

    constructor ()
      ensures View() == Init && Valid()
    {
      queue, mutexes, workers, notifiers := [], map[], map[], map[];
      place, exposed, owed := map[], {}, {};
      new;
      StartReached<State, Step>(IsInit, Next, Init);
    }

    method SpawnObjOk(i: TaskId)
      requires Valid() && Enabled(View(), Spawn(i))
      modifies this
      ensures View() == DoSpawn(old(View()), i) && Valid()
    {
      Onwards(View(), Spawn(i));
      mutexes := mutexes[i := Mutex(WAITING, false)];
      queue := queue + [i];
      place := place[i := Queued];
    }

    /** A round of the `work` loop: receives the oldest message. */
    method ReceiveTask(w: Tid)
      requires Valid() && Enabled(View(), Receive(w))
      modifies this
      ensures View() == DoReceive(old(View()), w) && Valid()
    {
      Onwards(View(), Receive(w));
      var i := queue[0];
      queue := queue[1..];
      workers := workers[w := Start(i)];
      place := place[i := Running(w)];
    }

    method StartPolling(w: Tid)
      requires Valid() && Enabled(View(), StartPoll(w))
      modifies this
      ensures View() == DoStartPoll(old(View()), w) && Valid()
    {
      Onwards(View(), StartPoll(w));
      var i := workers[w].i;
      mutexes := mutexes[i := mutexes[i].(status := POLLING)];
      workers := workers[w := AtLoop(i)];
    }

    /** `future.poll_unpin(&mut cx)` begins: from here on the waker may be called. */
    method PollFuture(w: Tid)
      requires Valid() && Enabled(View(), BeginPoll(w))
      modifies this
      ensures View() == DoBeginPoll(old(View()), w) && Valid()
    {
      Onwards(View(), BeginPoll(w));
      var i := workers[w].i;
      workers := workers[w := Polling(i)];
      exposed := exposed + {i};
      owed := owed - {i};
    }

    method FutureReturned(w: Tid, ready: bool)
      requires Valid() && Enabled(View(), PollReturns(w, ready))
      modifies this
      ensures View() == DoPollReturns(old(View()), w, ready) && Valid()
    {
      Onwards(View(), PollReturns(w, ready));
      workers := workers[w := if ready then Completing(workers[w].i) else Store(workers[w].i)];
    }

    /** `wait`: the task goes into the cell. */
    method StoreTask(w: Tid)
      requires Valid() && Enabled(View(), StoreStep(w))
      modifies this
      ensures View() == DoStore(old(View()), w) && Valid()
    {
      Onwards(View(), StoreStep(w));
      var i := workers[w].i;
      mutexes := mutexes[i := mutexes[i].(inner := true)];
      workers := workers[w := TryWait(i)];
    }

    /** `wait`: `compare_exchange(POLLING, WAITING)`. */
    method WaitForNotify(w: Tid)
      requires Valid() && Enabled(View(), TryWaitStep(w))
      modifies this
      ensures View() == DoTryWait(old(View()), w) && Valid()
    {
      Onwards(View(), TryWaitStep(w));
      var i := workers[w].i;
      if mutexes[i].status == POLLING {
        mutexes := mutexes[i := mutexes[i].(status := WAITING)];
        workers := workers - {w};
        place := place[i := InCell];
      } else {
        workers := workers[w := Renotified(i)];
      }
    }

    method ClobberRepoll(w: Tid)
      requires Valid() && Enabled(View(), RenotifiedStep(w))
      modifies this
      ensures View() == DoRenotified(old(View()), w) && Valid()
    {
      Onwards(View(), RenotifiedStep(w));
      ReachableAsserts(View(), w);
      var i := workers[w].i;
      assert mutexes[i].status == REPOLL;    // assert_eq!(status, REPOLL)
      mutexes := mutexes[i := mutexes[i].(status := POLLING)];
      workers := workers[w := TakeBack(i)];
    }

    method TakeTaskBack(w: Tid)
      requires Valid() && Enabled(View(), TakeBackStep(w))
      modifies this
      ensures View() == DoTakeBack(old(View()), w) && Valid()
    {
      Onwards(View(), TakeBackStep(w));
      ReachableAsserts(View(), w);
      var i := workers[w].i;
      assert mutexes[i].inner;               // take().unwrap()
      mutexes := mutexes[i := mutexes[i].(inner := false)];
      workers := workers[w := AtLoop(i)];
    }

    method CompleteTask(w: Tid)
      requires Valid() && Enabled(View(), Complete(w))
      modifies this
      ensures View() == DoComplete(old(View()), w) && Valid()
    {
      Onwards(View(), Complete(w));
      var i := workers[w].i;
      mutexes := mutexes[i := mutexes[i].(status := COMPLETE)];
      workers := workers - {w};
      place := place[i := Finished];
    }

    /** `notify`, up to the round of its loop that takes effect. */
    method NotifyTask(t: Tid, i: TaskId)
      requires Valid() && Enabled(View(), Notify(t, i))
      modifies this
      ensures View() == DoNotify(old(View()), t, i) && Valid()
    {
      Onwards(View(), Notify(t, i));
      owed := owed + {i};
      match mutexes[i].status
      case WAITING =>
        mutexes := mutexes[i := mutexes[i].(status := POLLING)];
        notifiers := notifiers[t := Take(i)];
        place := place[i := WithNotifier(t)];
      case POLLING => mutexes := mutexes[i := mutexes[i].(status := REPOLL)];
      case REPOLL =>
      case COMPLETE =>
    }

    method TakeTask(t: Tid)
      requires Valid() && Enabled(View(), TakeStep(t))
      modifies this
      ensures View() == DoTake(old(View()), t) && Valid()
    {
      Onwards(View(), TakeStep(t));
      ReachableAsserts(View(), t);
      var i := notifiers[t].i;
      assert mutexes[i].inner;               // take().unwrap()
      mutexes := mutexes[i := mutexes[i].(inner := false)];
      notifiers := notifiers[t := Send(i)];
    }

    /** `arc_self.exec.state.send(Message::Run(task))`. */
    method SendTask(t: Tid)
      requires Valid() && Enabled(View(), SendStep(t))
      modifies this
      ensures View() == DoSend(old(View()), t) && Valid()
    {
      Onwards(View(), SendStep(t));
      var i := notifiers[t].i;
      queue := queue + [i];
      notifiers := notifiers - {t};
      place := place[i := Queued];
    }
  }
}
