# Verified models of futures-rs

futures-rs is built on a dozen small protocols: lock-free queues, wakers that two threads race
over, locks that park tasks. Their source carries long comments that promise "no lost
wake-up", "exactly once" or "never exceeds". This project models those protocols step by step
and proves the promises.

## How the models are built

Each protocol is a transition system. Its `State` holds the fields of the source's objects
and, for every thread inside a method, where it is; a step is one atomic operation of the
source with the local work around it, taken by any thread whose turn it can be. `Inv` is what
every step keeps, `KeepsInv` proves that for each step, and the main theorems are about every
state of every run (`Runs.dfy`), for any number of threads, tasks, senders or futures. History
(what was pushed, which wakers were called) is part of the state so that "exactly once" and
"has been woken" can be said.

Beside each transition system stands the object itself: a class with the source's fields,
one method per atomic step, and a contract that says the method does to the fields what the
step does to the state. `Valid()` of the larger objects says that their state is one that a
run leads to, so every theorem about runs applies to them.

| file | models |
|---|---|
| `Runs.dfy`, `Chains.dfy` | runs of a transition system; chains of linked nodes |
| `AtomicWaker.dfy` | the two-bit lock around a waker |
| `ReadyToRunQueue.dfy` | the intrusive queue of FuturesUnordered, with its stub |
| `TaskList.dfy` | the list of all tasks, linked concurrently, with its lengths, and its iterators |
| `FuturesUnordered*.dfy` | the queue, the waker, the `queued` flag, reference ownership and `poll_next` together, and the task list beside them |
| `MessageQueue.dfy` | the queue of mpsc, and its simulation of a sequence |
| `Channel*.dfy`, `PackedState.dfy` | the bounded mpsc channel |
| `AsyncMutex*.dfy` | `lock::Mutex` |
| `UnparkMutex.dfy` | the thread pool's task loop |
| `Oneshot*.dfy` | the oneshot channel on its try-locks |
| `BiLock.dfy` | the two-handle lock |
| `FuturesOrdered.dfy` | the deque of futures |
| `BufWriter.dfy`, `LineWriter.dfy` | buffered output over an inner writer that follows any script of pending, failing and taking part of what it is given |

## What is assumed

- Memory is sequentially consistent: steps of different threads interleave, and a load sees the
  last store. A compare-exchange loop is one step, its last round.
- A thread that spins has no step until the store it waits for has happened; lemmas say that
  the thread that owes the store always has a step.
- A waker is an id; waking is noted in a log. Wakers with the same id wake the same task.
- One consumer per queue, one caller per sender, handle or future at a time, as `&mut self` and
  the safety comments of the source demand.
- Integers are unbounded except where their width is the point: the packed word of mpsc is a
  number below 2^64 whose arithmetic wraps, and the indices of FuturesOrdered stay within
  64 bits by precondition.
- The capacity of a `BufWriter` is the capacity its vector actually has.

## Where the source and its comments disagree

- The header of mpsc says that a sender is unparked when the message that made it park is read
  (mod.rs:60-61). With interleaved sends that is not so: `ReadButStillParked` is a run, and
  `UnparkedWhenReadIff` says exactly when it is so.
- The same header gives the capacity as the buffer plus the number of senders (mod.rs:46-47).
  Handles that senders dropped while parked leave behind raise it by one each: `CapacityBound`
  is the bound that holds, `CapacityIsReached` shows that it is reached for every buffer and
  any numbers of live and of dropped senders, and so the documented capacity holds exactly
  when no sender was dropped while parked, `CapacityAsDocumentedIff`.
- In LineWriter the buffer may hold a newline before its last byte, after a partial write of
  several lines. That can happen exactly if two newlines after the first byte are within one
  capacity: `TwoLinesBuffered` makes such a writer and call for all such data, the contract of
  `LineWriter.PollWrite` excludes it for all other data, and `AlwaysOneLineIff` is the same of
  the bytes chosen. What always holds is that a buffer with a newline ends in one.

## Model

| member | source | states |
|---|---|---|
| AtomicWakers.NeverAsserts | futures-core/src/task/__internal/atomic_waker.rs:264-405 | in every state of every run the release CAS of `register` fails only with both bits set, its waker is then still in the cell (the `unwrap`), `take`'s swap finds WAKING, a lock holder is the only one, and no thread is stuck |
| AtomicWakers.OnlyHolderTouchesCell | futures-core/src/task/__internal/atomic_waker.rs:264-405 | whoever changes the waker cell is the one thread that moved the state out of WAITING |
| AtomicWakers.DroppedOnlyWhenRacing | futures-core/src/task/__internal/atomic_waker.rs:343-355 | `register` is without effect only while another thread is inside `register` |
| AtomicWakers.WakeCovers | futures-core/src/task/__internal/atomic_waker.rs:376-405 | a `wake` that begins after `register` has returned leaves that registration with a thread committed to wake it |
| AtomicWakers.WakeIsDelivered | futures-core/src/task/__internal/atomic_waker.rs:264-405 | over every run: a `wake` that starts while the last registration is w's and its `register` has returned has w woken, or a wake in progress about to do it, in every later state, whatever is registered meanwhile; when no call is in progress w has been woken |
| AtomicWakers.KeepsCovered | futures-core/src/task/__internal/atomic_waker.rs:264-405 | every step of every thread, also of a later `register`, leaves a covered registration covered |
| AtomicWakers.KeepsInv | futures-core/src/task/__internal/atomic_waker.rs:264-405 | every atomic step keeps mutual exclusion of the two-bit lock, the meaning of the bits, and that a returned registration is armed or covered |
| AtomicWakers.RegistrationIsOf | futures-core/src/task/__internal/atomic_waker.rs:264-278 | over every run: what is registered was registered by a call of `register` with that waker, at that moment |
| AtomicWakers.AtomicWaker.BeginRegister | futures-core/src/task/__internal/atomic_waker.rs:265-270 | the first CAS of `register` and its three-way branch |
| AtomicWakers.AtomicWaker.StoreWaker | futures-core/src/task/__internal/atomic_waker.rs:273-278 | the cell update that keeps a waker of the same task |
| AtomicWakers.AtomicWaker.ReleaseRegister | futures-core/src/task/__internal/atomic_waker.rs:290-305 | the release CAS, with its debug assertion |
| AtomicWakers.AtomicWaker.TakeBack | futures-core/src/task/__internal/atomic_waker.rs:309 | the waker taken back after a lost release; the cell is never empty |
| AtomicWakers.AtomicWaker.SwapAfterTakeBack | futures-core/src/task/__internal/atomic_waker.rs:315 | the unlocking swap |
| AtomicWakers.AtomicWaker.WakeFromRegister | futures-core/src/task/__internal/atomic_waker.rs:324-341 | the wake-up `register` itself performs, on both paths |
| AtomicWakers.AtomicWaker.BeginWake | futures-core/src/task/__internal/atomic_waker.rs:380 | `fetch_or(WAKING)` |
| AtomicWakers.AtomicWaker.TakeWaker | futures-core/src/task/__internal/atomic_waker.rs:383 | the cell emptied under the lock |
| AtomicWakers.AtomicWaker.ReleaseWake | futures-core/src/task/__internal/atomic_waker.rs:386-387 | the swap back to WAITING, with its debug assertion |
| AtomicWakers.AtomicWaker.CallWaker | futures-core/src/task/__internal/atomic_waker.rs:362-366 | the wake-up of the waker taken, if any |
| ReadyToRunQueues.HandsOutOldest | futures-util/src/stream/futures_unordered/ready_to_run_queue.rs:54-90 | what `dequeue` returns is the oldest queued node, never the stub, and no producer has a write to it pending, so it may be enqueued again |
| ReadyToRunQueues.EmptyMeansEmpty | futures-util/src/stream/futures_unordered/ready_to_run_queue.rs:59-62 | `Empty` means nothing is queued, or that the producer right behind the stub has swapped the head and not yet linked |
| ReadyToRunQueues.LateInconsistent | futures-util/src/stream/futures_unordered/ready_to_run_queue.rs:75-88 | the final `Inconsistent` needs a producer that has yet to link its node behind the tail |
| ReadyToRunQueues.ConsumerMembership | futures-util/src/stream/futures_unordered/ready_to_run_queue.rs:54-90 | a consumer step takes exactly the node it hands out off the chain |
| ReadyToRunQueues.ExactlyOnceInOrder | futures-util/src/stream/futures_unordered/ready_to_run_queue.rs:36-90 | over every run, with any number of producers and one consumer: nodes handed out, then nodes queued, are the nodes enqueued in head-swap order, each as often as enqueued, never the stub |
| ReadyToRunQueues.KeepsInv | futures-util/src/stream/futures_unordered/ready_to_run_queue.rs:36-90 | every step keeps the chain: the stub at most once, links only where no producer is due, distinct nodes |
| ReadyToRunQueues.QuietLinks | futures-util/src/stream/futures_unordered/ready_to_run_queue.rs:36-90 | with no producer inside `enqueue` the chain is fully linked |
| ReadyToRunQueues.ReadyToRunQueue.ClearNext | futures-util/src/stream/futures_unordered/ready_to_run_queue.rs:41 | first step of `enqueue`, allowed only for a node that is not queued |
| ReadyToRunQueues.ReadyToRunQueue.SwapHead | futures-util/src/stream/futures_unordered/ready_to_run_queue.rs:45 | the head swap: the node joins the queue |
| ReadyToRunQueues.ReadyToRunQueue.LinkPrev | futures-util/src/stream/futures_unordered/ready_to_run_queue.rs:46 | the link of the previous head |
| ReadyToRunQueues.ReadyToRunQueue.FirstLoad | futures-util/src/stream/futures_unordered/ready_to_run_queue.rs:56-73 | `dequeue` up to its first answer or the second load |
| ReadyToRunQueues.ReadyToRunQueue.SecondLoad | futures-util/src/stream/futures_unordered/ready_to_run_queue.rs:64-73 | `dequeue` past the stub |
| ReadyToRunQueues.ReadyToRunQueue.LoadHead | futures-util/src/stream/futures_unordered/ready_to_run_queue.rs:75-77 | the comparison of head and tail |
| ReadyToRunQueues.ReadyToRunQueue.ClearStubNext | futures-util/src/stream/futures_unordered/ready_to_run_queue.rs:79 | the stub's re-enqueue, first step |
| ReadyToRunQueues.ReadyToRunQueue.SwapInStub | futures-util/src/stream/futures_unordered/ready_to_run_queue.rs:79 | the stub's re-enqueue, head swap: the stub is in the chain at most once |
| ReadyToRunQueues.ReadyToRunQueue.LinkPrevToStub | futures-util/src/stream/futures_unordered/ready_to_run_queue.rs:79 | the stub's re-enqueue, link |
| ReadyToRunQueues.ReadyToRunQueue.LookAgain | futures-util/src/stream/futures_unordered/ready_to_run_queue.rs:81-88 | the last look of `dequeue` |
| ReadyToRunQueues.ReadyToRunQueue.DequeueAlone | futures-util/src/stream/futures_unordered/ready_to_run_queue.rs:54-90 | with no producer inside, `dequeue` returns the oldest node, or Empty exactly when nothing is queued, and never Inconsistent |
| ReadyToRunQueues.ReadyToRunQueue.Drain | futures-util/src/stream/futures_unordered/ready_to_run_queue.rs:97-116 | the drop loop frees exactly the queued nodes, in order, without reaching its abort |
| ReadyToRunQueues.EnqueuesItsArgument | futures-util/src/stream/futures_unordered/ready_to_run_queue.rs:42-48 | over every run: what `enqueue(n)` puts into the queue at its head swap is n |
| TaskLists.WellFormedWhenExclusive | futures-util/src/stream/futures_unordered/mod.rs:307-341 | over every run of concurrent `link`s: from `head_all` the list is doubly linked, the head's `len_all` is its length, and every `len_all` is at least the length of its suffix |
| TaskLists.UnlinkNeverUnderflows | futures-util/src/stream/futures_unordered/mod.rs:347-379 | `len_all - 1` never underflows, also after a half-used `IntoIter` |
| TaskLists.UnlinkRemovesOne | futures-util/src/stream/futures_unordered/mod.rs:347-379 | `unlink` removes exactly the given task and leaves it as `link` expects one |
| TaskLists.LenIsThatOfLoad | futures-util/src/stream/futures_unordered/mod.rs:242-257 | over every run: `len` is the number of tasks listed when it loaded the head, whatever is linked meanwhile |
| TaskLists.HoldsWhatWasLinked | futures-util/src/stream/futures_unordered/mod.rs:307-379 | over every run: the list holds the tasks linked and neither unlinked nor popped, in the order of the head swaps of `link` |
| TaskLists.LenIsExact | futures-util/src/stream/futures_unordered/mod.rs:242-257 | `len` under concurrent links is the number of tasks when it loaded the head |
| TaskLists.IteratorWalksDown | futures-util/src/stream/futures_unordered/iter.rs:128-145 | a shared iterator visits the list it started on in order, its remaining length exact, ending at zero |
| TaskLists.IntoIterLenIsExact | futures-util/src/stream/futures_unordered/iter.rs:40-73 | over every run: the length of the owning iterator, which starts as the set's `len` and falls by one with every task handed out, is the number of tasks left |
| TaskLists.LowestLinkerGoesOn | futures-util/src/stream/futures_unordered/task.rs:146-157 | spinning on `next_all` ends: some thread inside `link` is always able to go on |
| TaskLists.KeepsInv | futures-util/src/stream/futures_unordered/mod.rs:307-379 | every step of link, unlink, readers and owning iterator keeps the list |
| TaskLists.TaskList.SwapHead | futures-util/src/stream/futures_unordered/mod.rs:311-315 | `link`: the head swap |
| TaskLists.TaskList.WriteLen | futures-util/src/stream/futures_unordered/mod.rs:319-327 | `link`: the new length, read from a settled next node |
| TaskLists.TaskList.StoreNext | futures-util/src/stream/futures_unordered/mod.rs:331 | `link`: the store that settles the node |
| TaskLists.TaskList.StorePrev | futures-util/src/stream/futures_unordered/mod.rs:335-337 | `link`: the back pointer |
| TaskLists.TaskList.Unlink | futures-util/src/stream/futures_unordered/mod.rs:347-379 | the whole of `unlink` on the heap of nodes: the list without the task, the new length in the head |
| TaskLists.TaskList.PopHead | futures-util/src/stream/futures_unordered/iter.rs:40-73 | `IntoIter::next`: pops the head and leaves every `len_all` as it is |
| TaskLists.TaskList.UnlinkAll | futures-util/src/stream/futures_unordered/mod.rs:606-610 | the loop of `drop` unlinks every task once, newest first |
| FuturesUnordereds.KeepsStructure | futures-util/src/stream/futures_unordered/mod.rs:262-304 | every step of the owner, of pushers and of wakers keeps: at most one token per task (in the chain, with a thread or with the owner), the flag's meaning, and who owns the list's reference |
| FuturesUnordereds.ClaimMayEnqueue | futures-util/src/stream/futures_unordered/task.rs:121-124 | a thread that set the flag first may enqueue: the node is not queued and nobody else is enqueueing it |
| FuturesUnordereds.DrainQuiet | futures-util/src/stream/futures_unordered/ready_to_run_queue.rs:107-113 | when the queue is dropped `dequeue` never answers Inconsistent |
| FuturesUnorderedGuarantees.AssertPrevHolds | futures-util/src/stream/futures_unordered/mod.rs:487-488 | `assert!(prev)` after unsetting the flag always holds |
| FuturesUnorderedGuarantees.EnqueueIsExclusive | futures-util/src/stream/futures_unordered/ready_to_run_queue.rs:36-38 | a task being enqueued has its flag set, is not freed, not in the chain and claimed by one thread only |
| FuturesUnorderedGuarantees.UnqueuedIsOwned | futures-util/src/stream/futures_unordered/task.rs:109-125 | `queued` is false only for an unreleased task that is not in the queue and that no thread has claimed; its future is there exactly if `IntoIter::next` is not just handing it out |
| FuturesUnorderedGuarantees.QueuedIsNotFreed | futures-util/src/stream/futures_unordered/mod.rs:426-479 | every task in the queue is still backed by the list's reference |
| FuturesUnorderedGuarantees.IterUnwrapHolds | futures-util/src/stream/futures_unordered/iter.rs:50-53 | the future of a task that is still linked is there, so the `unwrap` of `IntoIter::next` holds |
| FuturesUnorderedGuarantees.FutureGoneWhenFreed | futures-util/src/stream/futures_unordered/task.rs:160-176 | the list's reference is freed only after the future is gone: the abort of `Task::drop` is unreachable |
| FuturesUnorderedGuarantees.FreedExactlyOnce | futures-util/src/stream/futures_unordered/mod.rs:262-304 | over every run, owning iteration included, no reference is freed twice, and once set and queue are dropped every task ever pushed has been freed |
| FuturesUnorderedGuarantees.NeverAborts | futures-util/src/stream/futures_unordered/ready_to_run_queue.rs:107-113 | the abort of the queue's drop is unreachable |
| FuturesUnorderedGuarantees.PollStepDecreases | futures-util/src/stream/futures_unordered/mod.rs:425-567 | every step of `poll_next` lowers the measure 21 * (released tasks + len - polled) + stage, those inside `register` and `dequeue` too |
| FuturesUnorderedGuarantees.OtherStepsKeepRank | futures-util/src/stream/futures_unordered/mod.rs:425-567 | no step of another thread raises it |
| FuturesUnorderedGuarantees.PollIsNeverStuck | futures-util/src/stream/futures_unordered/mod.rs:414-568 | a running `poll_next` never waits for another thread: in every state with the invariant one of its own steps is enabled |
| FuturesUnorderedGuarantees.PollNextTerminates | futures-util/src/stream/futures_unordered/mod.rs:414-568 | `poll_next`, its `register` and its `dequeue`s included, takes at most 21 * (released tasks + len) + 25 steps after it has read `len`, whatever other threads do, and until it returns a step of its own is always possible |
| FuturesUnorderedWakeups.NeverSleepsOnWokenChild | futures-util/src/stream/futures_unordered/mod.rs:414-446 | over every run: after Pending, and until the next call, that poll's waker is the registered one, and the parent has been or is about to be woken, or no child of the set pushed before has its flag set or a wake-up it was not polled after |
| FuturesUnorderedWakeups.NobodyLeftBehind | futures-util/src/stream/futures_unordered/mod.rs:414-446 | with no other call in progress: the parent's waker was called since it was registered, or no such child has its flag set or an unanswered wake-up |
| FuturesUnorderedWakeups.PushedSince | futures-util/src/stream/futures_unordered/mod.rs:180-205 | over every run: a child counts as pushed since the last `poll_next` only if a push of it came after that call |
| FuturesUnorderedWakeups.QueuedChildHasWaker | futures-util/src/stream/futures_unordered/task.rs:121-126 | a child still queued while the owner sleeps has an enqueuer on its way to wake the parent |
| FuturesUnorderedWakeups.EmptyMeansAlert | futures-util/src/stream/futures_unordered/mod.rs:429-437 | Pending on an empty-looking queue with a flagged child left implies a thread that will call the parent's waker |
| FuturesUnorderedWakeups.AlertStays | futures-util/src/stream/futures_unordered/mod.rs:423-445 | a parent once alerted stays so until it polls again |
| FuturesUnorderedWakeups.WokenChildWakesParent | futures-util/src/stream/futures_unordered/task.rs:101-126 | over every run: when a child has been woken by `wake_by_ref` and not polled after that, and `poll_next` has answered Pending, the waker given to that last `poll_next` has been called since it began, or a thread is about to call it, unless the child was pushed after it began |
| FuturesUnorderedWakeups.WakeReaches | futures-util/src/stream/futures_unordered/task.rs:101-126 | over every run: a `wake_by_ref` whose reference was upgraded leaves its child flagged, with a wake-up that it was not polled after |
| FuturesUnorderedAnswers.EmptyAnswer | futures-util/src/stream/futures_unordered/mod.rs:429-437 | when `dequeue` finds nothing: `Ready(None)` leaves no child in the set, Pending leaves one |
| FuturesUnorderedAnswers.NoneMeansEmpty | futures-util/src/stream/futures_unordered/mod.rs:430-434 | over every run: after `Ready(None)`, until the next call, the set holds only what was pushed since |
| FuturesUnorderedAnswers.SomeMeansReady | futures-util/src/stream/futures_unordered/mod.rs:546-573 | over every run: an output is returned, and a child released by `poll_next`, only if the last child polled in that call answered Ready |
| FuturesUnorderedAnswers.ReadyIsReturned | futures-util/src/stream/futures_unordered/mod.rs:546-573 | over every run: after a child answered Ready the call does nothing but release that child and return its output |
| FuturesUnorderedAnswers.PendingIsListed | futures-util/src/stream/futures_unordered/mod.rs:547-552 | over every run: a child that answered Pending is listed again by the owner's next step |
| FuturesUnorderedAnswers.FutureDroppedWhenReady | futures-util/src/stream/futures_unordered/mod.rs:263-303 | over every run: `poll_next` drops a child's future only after that child answered Ready in that call |
| FuturesUnorderedAnswers.NeverPolledAfterReady | futures-util/src/stream/futures_unordered/mod.rs:455-478 | over every run: a child that has answered Ready is never polled again |
| FuturesUnorderedAnswers.YieldsOnlyWhenDue | futures-util/src/stream/futures_unordered/mod.rs:554-563 | over every run: `poll_next` wakes itself and yields only after two self-wakes, after polling as many children as there were, or on an inconsistent queue; in its loop fewer than two children have woken themselves |
| FuturesUnorderedAnswers.YieldedCounts | futures-util/src/stream/futures_unordered/mod.rs:549-551 | over every run: `yielded` is the number of children of this call that were linked again with their `woken` flag set |
| FuturesUnorderedAnswers.WokenSincePoll | futures-util/src/stream/futures_unordered/mod.rs:530-551 | over every run: the `woken` flag says exactly whether some thread has woken the child since its poll began |
| FuturesUnorderedAnswers.LastDropsQueue | futures-util/src/stream/futures_unordered/mod.rs:613-620 | over every run: once the set has given up its reference, the queue is being dropped unless some other thread holds one |
| FuturesUnorderedObject.FuturesUnordered.BeginPollNext | futures-util/src/stream/futures_unordered/mod.rs:414-423 | `len`, the counters, and the first step of `register` |
| FuturesUnorderedObject.FuturesUnordered.Dequeue | futures-util/src/stream/futures_unordered/mod.rs:426-447 | one step of `dequeue` and the match on its result; that None means an empty set is `NoneMeansEmpty` |
| FuturesUnorderedObject.FuturesUnordered.InspectTask | futures-util/src/stream/futures_unordered/mod.rs:455-482 | a released task's reference is freed, any other task is unlinked |
| FuturesUnorderedObject.FuturesUnordered.ResetQueuedFlag | futures-util/src/stream/futures_unordered/mod.rs:487-488 | the flag is unset before the poll; the assertion holds |
| FuturesUnorderedObject.FuturesUnordered.CallChild | futures-util/src/stream/futures_unordered/mod.rs:534-542 | `woken` is cleared and the child polled |
| FuturesUnorderedObject.FuturesUnordered.ChildReturned | futures-util/src/stream/futures_unordered/mod.rs:544-565 | `polled` counts, and the answer is dispatched |
| FuturesUnorderedObject.FuturesUnordered.RelinkChild | futures-util/src/stream/futures_unordered/mod.rs:547-563 | the pending child is linked again; yields after two self-wakes or len polls |
| FuturesUnorderedObject.FuturesUnordered.WakeSelf | futures-util/src/stream/futures_unordered/mod.rs:560-561 | the parent wakes itself before returning Pending |
| FuturesUnorderedObject.FuturesUnordered.BeginRelease | futures-util/src/stream/futures_unordered/mod.rs:271 | `release_task` sets the flag |
| FuturesUnorderedObject.FuturesUnordered.EndRelease | futures-util/src/stream/futures_unordered/mod.rs:285-303 | the future is dropped, the reference freed or left to the queue |
| FuturesUnorderedObject.FuturesUnordered.IntoIter | futures-util/src/stream/futures_unordered/mod.rs:650-657 | the set goes into an owning iterator |
| FuturesUnorderedObject.FuturesUnordered.IterateNext | futures-util/src/stream/futures_unordered/iter.rs:40-65 | `IntoIter::next` moves the future of the head out; its unwrap holds |
| FuturesUnorderedObject.FuturesUnordered.UnlinkForDrop | futures-util/src/stream/futures_unordered/mod.rs:606-610 | a round of the set's drop |
| FuturesUnorderedObject.FuturesUnordered.DropQueueReference | futures-util/src/stream/futures_unordered/mod.rs:613-620 | the set gives up its reference to the queue |
| FuturesUnorderedObject.FuturesUnordered.DrainQueue | futures-util/src/stream/futures_unordered/ready_to_run_queue.rs:107-113 | a step of the queue's drop; no abort |
| FuturesUnorderedObject.FuturesUnordered.BeginPush | futures-util/src/stream/futures_unordered/mod.rs:180-205 | `push`: a new task with its flag set |
| FuturesUnorderedObject.FuturesUnordered.BeginWakeByRef | futures-util/src/stream/futures_unordered/task.rs:102-105 | the upgrade of the weak reference |
| FuturesUnorderedObject.FuturesUnordered.StoreWoken | futures-util/src/stream/futures_unordered/task.rs:107 | `woken` is set |
| FuturesUnorderedObject.FuturesUnordered.SwapQueuedFlag | futures-util/src/stream/futures_unordered/task.rs:121-122 | the flag decides who enqueues |
| FuturesUnorderedObject.FuturesUnordered.EnqueueSwap | futures-util/src/stream/futures_unordered/ready_to_run_queue.rs:45 | the task enters the chain |
| FuturesUnorderedObject.FuturesUnordered.EnqueueLink | futures-util/src/stream/futures_unordered/ready_to_run_queue.rs:46 | the link; a waker goes on to wake, a push is done |
| FuturesUnorderedObject.FuturesUnordered.WakeParent | futures-util/src/stream/futures_unordered/task.rs:124 | the parent's waker is called |
| FuturesUnorderedObject.FuturesUnordered.EndWakeByRef | futures-util/src/stream/futures_unordered/task.rs:101-126 | the last reference to the queue starts its drop |
| FuturesUnorderedLists.ListGoesAlong | futures-util/src/stream/futures_unordered/mod.rs:307-379 | every run of the reference protocol, owning iteration included, is accompanied by a run of the pointer list that holds, after each step, exactly the listed tasks in their order |
| FuturesUnorderedLists.ListFollows | futures-util/src/stream/futures_unordered/mod.rs:307-379 | each step of the set can be followed by steps of the list, a whole `link`, an `unlink` or `IntoIter::next`, that leave it exactly the tasks then listed, in their order |
| FuturesUnorderedLists.HeadIsListed | futures-util/src/stream/futures_unordered/mod.rs:606-610 | while a task is listed `head_all` is a listed task, so the loops of `drop` and of the owning iterator go on |
| FuturesUnorderedLists.LenCountsListed | futures-util/src/stream/futures_unordered/mod.rs:417-434 | `head_all` is null exactly if no task is listed, and until the set is consumed or dropped `len()` is the number of listed tasks |
| MessageQueues.PushesItsArgument | futures-channel/src/mpsc/queue.rs:98-112 | over every run: what `push(x)` adds to the queue at its head swap is x |
| MessageQueues.AppendsItsArgument | futures-channel/src/mpsc/queue.rs:98-112 | and so it is in the run of plain sequences that goes along |
| MessageQueues.PopNeverPanics | futures-channel/src/mpsc/queue.rs:118-134 | the asserts and the unwrap of `pop` hold, so the consumer is never stuck |
| MessageQueues.FreedNodeIsUnreachable | futures-channel/src/mpsc/queue.rs:128 | the node `pop` frees is out of the chain and unknown to every pusher |
| MessageQueues.ExactlyOnceInOrder | futures-channel/src/mpsc/queue.rs:98-134 | over every run values popped, then values queued, are the values pushed in head-swap order |
| MessageQueues.Simulates | futures-channel/src/mpsc/queue.rs:98-161 | each step does to a plain sequence of slots (value, and who has yet to link it) an append, a link, a removal or nothing, and the consumer is told the truth about that sequence |
| MessageQueues.SimulatesRun | futures-channel/src/mpsc/queue.rs:98-161 | every run of the queue is, state by state and step by step, a run of a plain sequence of slots that starts empty, with the answers of `pop` true of it |
| MessageQueues.KeepsInv | futures-channel/src/mpsc/queue.rs:98-134 | every step keeps the chain with its one empty stub in front |
| MessageQueues.Queue.CreateNode | futures-channel/src/mpsc/queue.rs:100 | the new node with the argument of `push`: `PushesItsArgument` |
| MessageQueues.Queue.SwapHead | futures-channel/src/mpsc/queue.rs:101 | the head swap |
| MessageQueues.Queue.LinkPrev | futures-channel/src/mpsc/queue.rs:102 | the link |
| MessageQueues.Queue.PopNext | futures-channel/src/mpsc/queue.rs:120-130 | `pop` that finds a next node: moves the tail, takes the value, frees the old tail |
| MessageQueues.Queue.PopHead | futures-channel/src/mpsc/queue.rs:132 | `pop` that finds none: Empty or Inconsistent |
| MessageQueues.Queue.DropAll | futures-channel/src/mpsc/queue.rs:164-174 | the drop frees every node of the chain, once each, and drops the values still queued in order |
| Channels.QueuesAreSlotQueues | futures-channel/src/mpsc/mod.rs:580-635 | every step of the channel does to its two queues one of the steps of the plain sequences that `SimulatesRun` shows mpsc/queue.rs to be |
| Channels.KeepsCounts | futures-channel/src/mpsc/mod.rs:590-618 | every step keeps: `num_messages` = queued + in flight + popped and not yet counted down; parked handles and senders about to park never outnumber it; the capacity bound; one count per live sender |
| Channels.KeepsOrder | futures-channel/src/mpsc/mod.rs:580-587 | pushed = popped followed by what is queued |
| Channels.KeepsHistory | futures-channel/src/mpsc/mod.rs:537-577 | per sender, what it pushed and what it has counted but not pushed is what was accepted from it |
| PackedStates.EncodeDecode | futures-channel/src/mpsc/mod.rs:1453-1465 | every word is the encoding of what it decodes to |
| PackedStates.DecodeEncodeIff | futures-channel/src/mpsc/mod.rs:1453-1465 | a state survives encoding exactly when its count leaves the open bit free |
| PackedStates.DecrementIff | futures-channel/src/mpsc/mod.rs:1104-1111 | `fetch_sub(1)` counts down and spares the open bit exactly when there is a message to count |
| PackedStates.DecrementBorrows | futures-channel/src/mpsc/mod.rs:1104-1111 | with none it would turn an open empty channel into a closed full one |
| PackedStates.ClearOpenKeepsCount | futures-channel/src/mpsc/mod.rs:1417-1424 | closing clears the flag, keeps the count, and is idempotent |
| PackedStates.IncrementIff | futures-channel/src/mpsc/mod.rs:604-612 | adding one keeps flag and count apart exactly below MAX_CAPACITY, the bound that is asserted |
| ChannelAnswers.ReceivedIsPopped | futures-channel/src/mpsc/mod.rs:1057-1072 | over every run: the messages the receiver's calls returned, and the one it has in hand, are the messages popped from the queue, in their order |
| ChannelAnswers.AnswersFitTheCall | futures-channel/src/mpsc/mod.rs:1049-1144 | over every run: a `try_recv` answers a message, the end or Empty; a `poll_next` a message, the end, or Pending with the waker it was given |
| ChannelAnswers.EmptyMeansEmpty | futures-channel/src/mpsc/mod.rs:1063-1090 | over every run: a call that finds no message looked at an empty queue, with everything pushed popped, inside that very call |
| ChannelAnswers.NotYetMeansMore | futures-channel/src/mpsc/mod.rs:1075-1090 | over every run: Empty or Pending is answered only if the channel was open or an accepted message still to come when the call loaded the state, so never on a closed drained channel |
| ChannelAnswers.ReceiveTerminates | futures-channel/src/mpsc/mod.rs:1126-1144 | over every run a `try_recv` takes at most five steps of the receiver and a `poll_next` nine, the inside of `register` aside |
| ChannelAnswers.ClosedAcceptsNothing | futures-channel/src/mpsc/mod.rs:590-602 | over every run: a closed channel stays closed, and nothing more is accepted from any sender |
| ChannelAnswers.CloseChannelCloses | futures-channel/src/mpsc/mod.rs:681-688 | over every run: once `close_channel` has stored its flag the channel is closed |
| ChannelAnswers.CloseCloses | futures-channel/src/mpsc/mod.rs:1017-1027 | over every run: `Receiver::close` returns with the channel closed and every parked handle taken |
| ChannelAnswers.DroppedForGood | futures-channel/src/mpsc/mod.rs:967-976 | over every run: a dropped sender stays dropped, so no further call of it begins |
| ChannelAnswers.LastDropCloses | futures-channel/src/mpsc/mod.rs:967-976 | over every run: when every sender has been dropped and is through with it the channel is closed |
| ChannelAnswers.TrySendAcceptsItsArgument | futures-channel/src/mpsc/mod.rs:525-577 | over every run: `try_send(m)` appends exactly m to what was accepted from its sender and answers Ok, or nothing and answers Full or Disconnected |
| ChannelAnswers.AnswersStayTrue | futures-channel/src/mpsc/mod.rs:549-655 | over every run: a sender that was told Disconnected faces a closed channel, and one told that there is capacity is not parked until it sends |
| ChannelAnswers.FullMeansParked | futures-channel/src/mpsc/mod.rs:525-529 | over every run: Full is answered only if the sender was parked at a moment inside the call |
| ChannelAnswers.ReadyIsHonoured | futures-channel/src/mpsc/mod.rs:637-655 | over every run: the `try_send` that follows a `poll_ready` answering Ready is not answered Full |
| ChannelAnswers.PollReadyAnswers | futures-channel/src/mpsc/mod.rs:649-714 | over every run: `poll_ready` answers Disconnected exactly if it found the channel closed, and Pending only if the sender was parked inside the call, after which it waits with the waker of that call |
| ChannelAnswers.ParksOnlyPastBuffer | futures-channel/src/mpsc/mod.rs:549-575 | over every run: a sender is parked only since it sent a message that found `num_messages` at or past the buffer on an open channel |
| ChannelParking.KeepsParking | futures-channel/src/mpsc/mod.rs:620-635 | every step keeps: a sender's task is parked exactly while its one handle is queued, about to be, or in the receiver's hands; an open channel's sender that believes not to be parked is not; a waiting waker is in the task |
| ChannelGuarantees.CountNeverBorrows | futures-channel/src/mpsc/mod.rs:1057-1111 | over every run the counter is exact, so `fetch_sub` never borrows into the open bit |
| ChannelGuarantees.ParkedNeverOutnumber | futures-channel/src/mpsc/mod.rs:620-635 | over every run handles in the parked queue and senders about to park are at most `num_messages` |
| ChannelGuarantees.NobodyStrandedWhenEmpty | futures-channel/src/mpsc/mod.rs:1057-1102 | once every accepted message has been received no sender is parked or waiting |
| ChannelGuarantees.NobodyBlockedAfterClose | futures-channel/src/mpsc/mod.rs:1017-1027 | after `Receiver::close` no sender both believes to be and is parked, and none waits |
| ChannelGuarantees.CapacityBound | futures-channel/src/mpsc/mod.rs:46-58 | on an open channel the accepted unpopped messages are at most buffer + parked handles + senders about to park, no sender has two handles there, and so at most buffer + live senders + senders dropped while parked |
| ChannelGuarantees.ExactlyOnceInOrder | futures-channel/src/mpsc/mod.rs:549-587 | messages are popped once each in push order, and per sender in its own order |
| ChannelGuarantees.EndMeansAllDelivered | futures-channel/src/mpsc/mod.rs:1074-1080 | `Ready(None)` only on a closed channel with every accepted message of every sender delivered |
| ChannelGuarantees.EndIsFinal | futures-channel/src/mpsc/mod.rs:1057-1090 | nothing is accepted, pushed or delivered after the end of the stream |
| ChannelGuarantees.SpinsOnlyForRunningSender | futures-channel/src/mpsc/queue.rs:140-161 | `pop_spin` on either queue spins only while some sender is one store away from letting it go on |
| ChannelGuarantees.PendingSenderIsWoken | futures-channel/src/mpsc/mod.rs:649-714 | a `poll_ready` that returned Pending, and whose sender did not call `try_send` or `poll_ready` again, has its waker woken by the time all messages are received or `close` has finished |
| ChannelGuarantees.WaitingEndsWithWake | futures-channel/src/mpsc/mod.rs:363-369 | a waiting sender stops waiting only by its waker being woken or by asking again |
| ChannelGuarantees.KeepsInv | futures-channel/src/mpsc/mod.rs:537-1111 | every step keeps all of the channel's invariants together |
| ChannelHeaderClaims.UnparkedWhenReadIff | futures-channel/src/mpsc/mod.rs:60-61 | a parked sender's handle has been taken out by the time the message that made it park is read exactly if fewer handles were before it than messages were still to be matched with one |
| ChannelHeaderClaims.UnparkedWhenReadIfAlone | futures-channel/src/mpsc/mod.rs:60-61 | in particular when no other sender was between counting and pushing |
| ChannelHeaderClaims.ReadButStillParked | futures-channel/src/mpsc/mod.rs:60-61 | a run with two senders in which a sender's only message is read and it stays parked: the comment is not true of interleaved sends |
| ChannelHeaderClaims.CapacityIsReached | futures-channel/src/mpsc/mod.rs:46-47 | for every buffer b below MAX_BUFFER, n live senders and o senders dropped while parked, within MAX_CAPACITY, a run leads to an open channel with exactly b + n + o accepted unpopped messages: the bound is tight |
| ChannelHeaderClaims.CapacityAsDocumentedIff | futures-channel/src/mpsc/mod.rs:46-47 | the documented capacity, buffer + senders, bounds every reachable open channel with buffer b, below MAX_BUFFER, n live senders and o senders dropped while parked if and only if o is 0 |
| ChannelWakeups.SleepingReceiverIsWoken | futures-channel/src/mpsc/mod.rs:1126-1144 | over every run: after `poll_next` returned Pending, a pushed message, or a close with nothing left, has the registered task woken, or a sender or wake in progress about to do it |
| ChannelWakeups.NobodySleepsOnNews | futures-channel/src/mpsc/mod.rs:580-587 | with no sender inside a call: the receiver has been woken, or the queue is empty, the channel open and some sender alive |
| ChannelWakeups.KeepsWakes | futures-channel/src/mpsc/mod.rs:681-688 | every step keeps this, composed with the AtomicWaker steps: the receiver is the only registrar, and every news comes with its signal |
| ChannelWakeups.RegisterTakes | futures-channel/src/mpsc/mod.rs:1137 | the receiver's `register` is never dropped, as nobody else registers |
| ChannelObject.BoundedChannel.CloneSender | futures-channel/src/mpsc/mod.rs:934-963 | a new sender, counted |
| ChannelObject.BoundedChannel.DropSender | futures-channel/src/mpsc/mod.rs:977-986 | the count goes down; the last sender closes the channel |
| ChannelObject.BoundedChannel.MarkClosedBySender | futures-channel/src/mpsc/mod.rs:1417-1424 | `set_closed` on the packed word |
| ChannelObject.BoundedChannel.BeginTrySend | futures-channel/src/mpsc/mod.rs:525-533 | `try_send`: the lock is taken only if `maybe_parked` |
| ChannelObject.BoundedChannel.CheckParkedTask | futures-channel/src/mpsc/mod.rs:690-714 | `poll_unparked(None)`: Full exactly while the task is parked, otherwise the flag is cleared |
| ChannelObject.BoundedChannel.IncNumMessages | futures-channel/src/mpsc/mod.rs:590-618 | the counting CAS on the packed word, and the decision to park |
| ChannelObject.BoundedChannel.ParkTask | futures-channel/src/mpsc/mod.rs:620-625 | the task is marked parked without a waker |
| ChannelObject.BoundedChannel.PushHandle | futures-channel/src/mpsc/mod.rs:628-629 | the handle enters the parked queue |
| ChannelObject.BoundedChannel.FinishPark | futures-channel/src/mpsc/mod.rs:633-634 | `maybe_parked` from the open flag |
| ChannelObject.BoundedChannel.PushMessage | futures-channel/src/mpsc/mod.rs:580-582 | the message enters the message queue |
| ChannelObject.BoundedChannel.LinkMessage | futures-channel/src/mpsc/mod.rs:580-582 | its link |
| ChannelObject.BoundedChannel.SignalReceiver | futures-channel/src/mpsc/mod.rs:586 | `recv_task.wake()` |
| ChannelObject.BoundedChannel.PollReadySender | futures-channel/src/mpsc/mod.rs:649-655 | an error on a closed channel, ready at once if not parked |
| ChannelObject.BoundedChannel.PollUnparked | futures-channel/src/mpsc/mod.rs:690-714 | Pending exactly while the task is parked, and then with the caller's waker in it |
| ChannelObject.BoundedChannel.PopMessage | futures-channel/src/mpsc/mod.rs:1063-1064 | the oldest message is taken, to be returned by this call: `ReceivedIsPopped` |
| ChannelObject.BoundedChannel.UnparkOne | futures-channel/src/mpsc/mod.rs:1096-1102 | the oldest handle is taken |
| ChannelObject.BoundedChannel.NotifySender | futures-channel/src/mpsc/mod.rs:363-369 | the task is unparked and its waker woken |
| ChannelObject.BoundedChannel.DecNumMessages | futures-channel/src/mpsc/mod.rs:1104-1111 | `fetch_sub` on the packed word, never on a count of zero |
| ChannelObject.BoundedChannel.LoadChannelState | futures-channel/src/mpsc/mod.rs:1074-1091 | end of stream, register, or Pending |
| ChannelObject.BoundedChannel.MarkClosedByReceiver | futures-channel/src/mpsc/mod.rs:1017-1019 | `close` closes first |
| ChannelObject.BoundedChannel.DrainParked | futures-channel/src/mpsc/mod.rs:1023-1025 | `close` then takes every parked handle |
| AsyncMutexes.NeverStranded | futures-util/src/lock/mutex.rs:163-198 | over every run: while the lock is free and the slab is not empty, an entry is woken, or an unlock has yet to wake one, or a future has yet to try the lock a second time |
| AsyncMutexes.SomeWaiterIsWoken | futures-util/src/lock/mutex.rs:345-375 | with nobody inside a call, a free lock and a waiting future: some waiting future's waker has been woken since it entered it |
| AsyncMutexes.AtMostOneGuard | futures-util/src/lock/mutex.rs:108-111 | at most one guard exists, exactly while IS_LOCKED is set |
| AsyncMutexes.BitMatchesSlab | futures-util/src/lock/mutex.rs:163-186 | HAS_WAITERS says whether the slab is empty whenever its mutex is free |
| AsyncMutexes.KeysAreValid | futures-util/src/lock/mutex.rs:163-181 | a future's key is that of an occupied entry whenever it is used, and no other future's |
| AsyncMutexes.PendingIsEntered | futures-util/src/lock/mutex.rs:354-374 | a future whose poll returned Pending is in the slab with its last waker, or that waker was woken |
| AsyncMutexes.KeepsInv | futures-util/src/lock/mutex.rs:108-388 | every step of polls, drops, unlocks and bare try_locks keeps these |
| AsyncMutexes.Mutex.TryLockNow | futures-util/src/lock/mutex.rs:108-111 | `try_lock`: a guard exactly if the bit was clear |
| AsyncMutexes.Mutex.FirstTryLock | futures-util/src/lock/mutex.rs:348-352 | the first attempt of `poll` |
| AsyncMutexes.Mutex.EnterSlab | futures-util/src/lock/mutex.rs:354-364 | a new entry, or the old one with the new waker |
| AsyncMutexes.Mutex.SetHasWaiters | futures-util/src/lock/mutex.rs:358-360 | the bit is set for the first entry |
| AsyncMutexes.Mutex.SecondTryLock | futures-util/src/lock/mutex.rs:368-374 | the attempt after entering |
| AsyncMutexes.Mutex.RemoveWaker | futures-util/src/lock/mutex.rs:163-181 | the entry goes; a woken future that gives up wakes another |
| AsyncMutexes.Mutex.ClearHasWaiters | futures-util/src/lock/mutex.rs:182-184 | the bit is cleared with the last entry |
| AsyncMutexes.Mutex.BeginUnlock | futures-util/src/lock/mutex.rs:190-192 | `unlock`: the bit is cleared |
| AsyncMutexes.Mutex.WakeOnUnlock | futures-util/src/lock/mutex.rs:192-197 | `unlock`: the first entry is woken |
| AsyncMutexes.Mutex.BeginDropFuture | futures-util/src/lock/mutex.rs:378-387 | a future dropped before it acquired the lock |
| AsyncMutexAnswers.LockGoesToWhoTries | futures-util/src/lock/mutex.rs:108-111 | over every run: whoever tries a free lock gets the guard and nobody gets one otherwise; a guard ends only with its own unlock, which frees the lock |
| AsyncMutexAnswers.PollServes | futures-util/src/lock/mutex.rs:345-376 | over every run: while a poll goes on, and after it answered Pending, the waker it was given is the one in its entry |
| AsyncMutexAnswers.PendingPollIsEntered | futures-util/src/lock/mutex.rs:345-376 | over every run: a poll answers Pending only if it found the lock taken after entering its waker, and that waker is in the slab or was woken since the poll began |
| AsyncMutexAnswers.ReadyHoldsGuard | futures-util/src/lock/mutex.rs:345-376 | over every run: a lock future that answered Ready holds the one guard until its unlock |
| AsyncMutexAnswers.DroppedLeavesNothing | futures-util/src/lock/mutex.rs:379-389 | over every run: a future dropped before it acquired the lock never holds it, and leaves no entry in the slab |
| AsyncMutexAnswers.CallsAreShort | futures-util/src/lock/mutex.rs:345-389 | over every run a poll takes at most six steps and a drop two, whatever the others do |
| UnparkMutexes.OnePlace | futures-executor/src/unpark_mutex.rs:57-137 | over every run a task object is in exactly one place: once in the run queue, with one worker, with one notifier, in its cell, or finished |
| UnparkMutexes.NeverPolledTwice | futures-executor/src/thread_pool.rs:313-340 | two workers never run the same task |
| UnparkMutexes.AssertsHold | futures-executor/src/unpark_mutex.rs:72-123 | the `assert_eq!` to REPOLL and both unwraps never fail, and `start_poll` runs only where its safety comment allows |
| UnparkMutexes.NotifyIsNotLost | futures-executor/src/unpark_mutex.rs:57-92 | until a poll of the task begins after a `notify`, one is certain to come or the future has answered Ready |
| UnparkMutexes.SleepsOnlyAfterPoll | futures-executor/src/unpark_mutex.rs:111-126 | a task that was notified and is asleep again has begun a poll in between |
| UnparkMutexes.KeepsInv | futures-executor/src/unpark_mutex.rs:57-137 | every step of spawning, workers and notifiers keeps the places and the owed polls |
| UnparkMutexes.ThreadPool.SpawnObjOk | futures-executor/src/thread_pool.rs:102-109 | a new task, on its way to a worker while its mutex says WAITING |
| UnparkMutexes.ThreadPool.ReceiveTask | futures-executor/src/thread_pool.rs:158-161 | a worker takes the oldest task |
| UnparkMutexes.ThreadPool.StartPolling | futures-executor/src/unpark_mutex.rs:101-103 | `start_poll` |
| UnparkMutexes.ThreadPool.PollFuture | futures-executor/src/thread_pool.rs:323-324 | a poll begins; what was notified before is served by it |
| UnparkMutexes.ThreadPool.FutureReturned | futures-executor/src/thread_pool.rs:325-328 | the answer of the future, which alone decides: `EndsOnlyWhenReady`, `ReadyIsFinal` |
| UnparkMutexes.ThreadPool.StoreTask | futures-executor/src/unpark_mutex.rs:112 | `wait`: the task into the cell |
| UnparkMutexes.ThreadPool.WaitForNotify | futures-executor/src/unpark_mutex.rs:114-116 | `wait`: asleep, or notified meanwhile |
| UnparkMutexes.ThreadPool.ClobberRepoll | futures-executor/src/unpark_mutex.rs:120-122 | the assertion, and back to POLLING |
| UnparkMutexes.ThreadPool.TakeTaskBack | futures-executor/src/unpark_mutex.rs:123 | the cell is never empty here |
| UnparkMutexes.ThreadPool.CompleteTask | futures-executor/src/unpark_mutex.rs:135-137 | `complete` |
| UnparkMutexes.ThreadPool.NotifyTask | futures-executor/src/unpark_mutex.rs:57-92 | `notify`: the three-way branch |
| UnparkMutexes.ThreadPool.TakeTask | futures-executor/src/unpark_mutex.rs:72-74 | the notifier's unwrap |
| UnparkMutexes.ThreadPool.SendTask | futures-executor/src/thread_pool.rs:350-353 | the task goes back to the run queue |
| UnparkMutexes.EndsOnlyWhenReady | futures-executor/src/thread_pool.rs:325-328 | over every run: a task is completing or complete only if its future answered Ready in an earlier step |
| UnparkMutexes.ReadyIsFinal | futures-executor/src/thread_pool.rs:325-328 | over every run: a task whose future answered Ready is at its end ever after, and never polled again |
| UnparkMutexes.PolledAgainOnlyIfNotified | futures-executor/src/unpark_mutex.rs:84-117 | over every run: two polls of a task after its poll requests were cleared have a notify of it in between |
| UnparkMutexes.TasksRunInOrder | futures-executor/src/thread_pool.rs:144-162 | over every run: workers receive the tasks sent to the pool once each, in the order of the sends |
| Oneshots.ValueConserved | futures-channel/src/oneshot.rs:125-156 | over every run, after `send` returned the value is back as an error, or delivered once, or left in the slot of a successful send, and only one of these |
| Oneshots.SendAfterCloseFails | futures-channel/src/oneshot.rs:125-156 | a send that begins after close or drop of the receiver has returned fails and hands its value back |
| Oneshots.ReadyMeansDelivered | futures-channel/src/oneshot.rs:241-298 | if send succeeded and the receiver neither closed nor dropped, its first Ready answer delivers the value |
| Oneshots.PendingReceiverIsWoken | futures-channel/src/oneshot.rs:192-227 | a receiver whose last poll was Pending is woken once `drop_tx` has finished, although its try_locks may fail |
| Oneshots.PendingSenderIsWoken | futures-channel/src/oneshot.rs:158-328 | a sender whose last `poll_canceled` was Pending has been woken once a `close_rx` or the `drop_rx` has finished, whatever the receiver does after that |
| Oneshots.CanceledMeansComplete | futures-channel/src/oneshot.rs:158-186 | `poll_canceled` is Ready only if `complete` is set, also where it finds the lock taken |
| Oneshots.LocksExclude | futures-channel/src/lock.rs:53-82 | each try-lock's flag is set exactly while one half holds it, never both |
| Oneshots.SendNeverStuck | futures-channel/src/oneshot.rs:133-135 | `assert!(slot.is_none())` never fails |
| Oneshots.Inner.GoOnSending | futures-channel/src/oneshot.rs:125-156 | the steps of `send`; that they end in Ok before a close is `SendSucceedsUnlessClosing` |
| Oneshots.Inner.GoOnPollingCanceled | futures-channel/src/oneshot.rs:158-186 | the steps of `poll_canceled` |
| Oneshots.Inner.GoOnDroppingSender | futures-channel/src/oneshot.rs:192-227 | the steps of `drop_tx` |
| Oneshots.Inner.GoOnPolling | futures-channel/src/oneshot.rs:256-285 | the steps of `recv` up to the data |
| Oneshots.Inner.GoOnTaking | futures-channel/src/oneshot.rs:241-298 | the data looked at by `recv`, `try_recv` and `is_terminated` |
| Oneshots.Inner.GoOnClosing | futures-channel/src/oneshot.rs:229-328 | the steps of `close_rx` and `drop_rx` |
| OneshotAnswers.SendSucceedsUnlessClosing | futures-channel/src/oneshot.rs:125-154 | over every run: a send that ends before the receiver begins to close or drop returns Ok |
| OneshotAnswers.OfferedIsTheArgument | futures-channel/src/oneshot.rs:125-137 | over every run: the value delivered, refused or left in the slot is the argument of the one send |
| OneshotAnswers.AnswersAreTrue | futures-channel/src/oneshot.rs:241-297 | over every run: a value received is the one delivered and the one sent; a value, Canceled or a true `is_terminated` means that `complete` is set, which is so only once the sender is being dropped or the receiver closes |
| OneshotAnswers.NoWakerLeft | futures-channel/src/oneshot.rs:218-224 | over every run: a half that is gone has left no waker of its own in its slot |
| OneshotAnswers.RxAnswersFit | futures-channel/src/oneshot.rs:241-325 | over every run: each call of the receiver is answered in its own way, and a poll that answers Pending leaves its own waker waiting, from the moment it began |
| OneshotAnswers.CancelAnswersFit | futures-channel/src/oneshot.rs:158-186 | over every run: a `poll_canceled` that answers Pending leaves its own waker waiting, from the moment it began |
| OneshotAnswers.CompleteMeansReady | futures-channel/src/oneshot.rs:241-297 | over every run: once `complete` is set a `recv` or `try_recv` answers the value or Canceled |
| OneshotAnswers.CompleteMeansCanceled | futures-channel/src/oneshot.rs:158-186 | over every run: once `complete` is set `poll_canceled` answers Ready |
| OneshotAnswers.AnsweredFromSlot | futures-channel/src/oneshot.rs:241-297 | over every run: once the sender is through, `recv` and `try_recv` receive the value exactly if it was left in the slot, also after a close, and `is_terminated` says whether it was not |
| OneshotAnswers.SenderCallIsShort | futures-channel/src/oneshot.rs:125-227 | over every run a call of the sender takes at most 13 steps, the drop that follows a send included, whatever the receiver does |
| OneshotAnswers.ReceiverCallIsShort | futures-channel/src/oneshot.rs:229-325 | and one of the receiver at most 6 |
| BiLocks.ExclusiveAndNull | futures-util/src/lock/bilock.rs:92-137 | over every run the handles never hold the lock together, and the word is null exactly while neither does |
| BiLocks.NeverPanics | futures-util/src/lock/bilock.rs:134-181 | both panics are unreachable |
| BiLocks.BoxesOwnedOnce | futures-util/src/lock/bilock.rs:92-205 | every boxed waker has one owner; when both handles are gone the word is null, as `Inner::drop` asserts, and no box is left |
| BiLocks.ParkedHandleIsWoken | futures-util/src/lock/bilock.rs:176-192 | a handle whose poll returned Pending has been woken unless the other holds the lock with that waker in the word, or is about to call it in `unlock` |
| BiLocks.KeepsInv | futures-util/src/lock/bilock.rs:92-192 | every step keeps exclusion, box ownership and the parked wakers |
| BiLocks.Inner.Swap | futures-util/src/lock/bilock.rs:95-113 | the swap to one, and the box for the next step |
| BiLocks.Inner.CompareExchange | futures-util/src/lock/bilock.rs:116-134 | parks, or goes round again after an unlock |
| BiLocks.Inner.BeginUnlock | futures-util/src/lock/bilock.rs:177-184 | the swap to null |
| BiLocks.Inner.WakeParked | futures-util/src/lock/bilock.rs:188-190 | the parked waker is woken and its box freed |
| BiLocks.HeldUntilUnlocked | futures-util/src/lock/bilock.rs:176-193 | over every run: a handle holds the lock until its own unlock, which leaves the word null |
| BiLocks.PollServes | futures-util/src/lock/bilock.rs:92-143 | over every run: a `poll_lock` that answered Pending is parked with the waker it was given, from the moment it began |
| BiLocks.PendingMeansTaken | futures-util/src/lock/bilock.rs:92-143 | over every run: `poll_lock` answers Pending only if the other handle held the lock when it parked |
| FuturesOrdereds.OutputsInDequeOrder | futures-util/src/stream/futures_ordered.rs:158-222 | over every mix of pushes, clears and polls and every completion order: indices in progress and queued are disjoint and exactly those from outgoing to incoming, outputs come out as from a deque, `Ready(None)` only when nothing is held |
| FuturesOrdereds.KeepsBeginPoll | futures-util/src/stream/futures_ordered.rs:202-207 | a queued front output is yielded at once; otherwise the front is not queued |
| FuturesOrdereds.KeepsComplete | futures-util/src/stream/futures_ordered.rs:209-218 | a completion yields the front of the deque, or leaves the deque as it is |
| FuturesOrdereds.PendingOnlyIfInnerPends | futures-util/src/stream/futures_ordered.rs:198-222 | over every run: a call of `poll_next` is over without an output or the end only if the set of futures in progress answered Pending in its last step |
| FuturesOrdereds.KeepsEnd | futures-util/src/stream/futures_ordered.rs:209-220 | the loop ends with None only on an empty deque, with Pending only on a non-empty one |
| FuturesOrdereds.FuturesOrdered.PushBack | futures-util/src/stream/futures_ordered.rs:158-162 | appends to the deque |
| FuturesOrdereds.FuturesOrdered.PushFront | futures-util/src/stream/futures_ordered.rs:171-175 | prepends to the deque |
| FuturesOrdereds.FuturesOrdered.Clear | futures-util/src/stream/futures_ordered.rs:181-186 | empties the deque |
| FuturesOrdereds.FuturesOrdered.PollNext | futures-util/src/stream/futures_ordered.rs:198-222 | yields the front of the deque, or reports it not completed, or that there is none; a queued front is yielded without polling the set; otherwise the answer is that of the set's last answer, Pending, None or the output whose turn it is, and all earlier ones of the call came out of turn |
| BufWriters.BufWriter.FlushBuf | futures-util/src/io/buf_writer.rs:56-82 | for every inner writer: what it took followed by what is held stays the bytes accepted; an interrupted flush resumes, an ended one drains; success empties the buffer; Pending and errors are those of the inner writer's last answer |
| BufWriters.BufWriter.WriteToBuf | futures-util/src/io/buf_writer.rs:128-137 | truncates to the spare capacity; the buffer never outgrows its capacity |
| BufWriters.BufWriter.PollWrite | futures-util/src/io/buf_writer.rs:159-172 | accepts exactly the prefix it reports, in order, whether buffered or written through; data shorter than the capacity that fits is buffered whole without a call of the inner writer; longer data is answered as the inner writer answered; Pending and errors are those of its last answer |
| BufWriters.BufWriter.PollWriteVectored | futures-util/src/io/buf_writer.rs:174-188 | the same for the concatenation of the slices |
| BufWriters.BufWriter.PollFlush | futures-util/src/io/buf_writer.rs:190-198 | Ready only when the inner writer has taken every accepted byte |
| LineWriters.BufferedIsNext | futures-util/src/io/line_writer.rs:86-99 | what `poll_write` buffers follows what was flushed without a gap, fits, and ends a line or holds no newline |
| LineWriters.AlwaysOneLineIff | futures-util/src/io/line_writer.rs:86-99 | the bytes chosen for the buffer hold no newline before the last one, whatever the inner writer takes, exactly if no two newlines after the first byte are within one capacity |
| LineWriters.TwoLinesBuffered | futures-util/src/io/line_writer.rs:86-99 | for all data with two newlines after the first byte within one capacity: a writer and a `poll_write` on it after which the held bytes have a newline before the last one |
| LineWriters.LineWriter.FlushIfCompletedLine | futures-util/src/io/line_writer.rs:41-47 | flushes a completed line; afterwards the held bytes hold no newline, and where it is interrupted no newline comes to stand before the last one |
| LineWriters.LineWriter.PollWrite | futures-util/src/io/line_writer.rs:62-101 | accepts exactly the prefix it reports, in order; held bytes end a line or hold no newline; they hold no newline before the last byte if they did not before and no two newlines of the data are within one capacity; the answer is what the inner writer took of the lines and what has been buffered behind it, or data without a newline that fits, whole; Pending and errors are the inner writer's last |
| LineWriters.LineWriter.PollWriteVectored | futures-util/src/io/line_writer.rs:103-147 | accepts exactly the reported prefix of the concatenation of the slices; no call makes a newline stand before the last held byte; the answer is what the inner writer took of the lines and, if all, as much of the slices behind them as fits |
| LineWriters.LineWriter.BufferTail | futures-util/src/io/line_writer.rs:139-144 | slices are buffered while any of them fits, without a gap |
| LineWriters.LineWriter.PollFlush | futures-util/src/io/line_writer.rs:150-157 | Ready only when the inner writer has taken every accepted byte |

## Left out

- Weak memory orderings: every step is sequentially consistent, so nothing here says that Acquire, Release or Relaxed suffice.
- Panics and unwinding: only that the asserts, unwraps and aborts named above are unreachable; `Bomb` and `LeakQueueOnDrop` are not modelled.
- In the reference protocol of FuturesUnordered `link` and `unlink` are one step each; `FuturesUnorderedList.dfy` lets the pointer list go along with whole `link`s, and their interleavings are in `TaskList.dfy` alone.
- The queues inside `BoundedChannel` are sequences of slots; that `mpsc/queue.rs` behaves as such a sequence is `MessageQueues.SimulatesRun`.
- `Receiver::drop`'s loop that empties the channel: it calls `close` and `next_message`, which are modelled.
- The assertion `num_messages < MAX_CAPACITY` and the panic in `clone` at the maximum of senders are conditions of their steps, not proved unreachable: handles left by dropped senders do not bound the count.
- The unbounded channel: a part of the bounded one.
- The owned and mapped guards and the owned lock future of `lock::Mutex`: the same protocol.
- The slab crate: an entry may be given any vacant key; the first entry is the one with the lowest key.
- Thread creation, hooks and Close messages of the thread pool: any number of workers, none of which stops.
- `BiLock::reunite`, `BiLockAcquire`, pointer equality and formatting helpers.
- `is_canceled` of oneshot: one load.
- `is_terminated` of FuturesUnordered and FuturesOrdered, size hints, and `FromIterator` or `Extend`: one branch each.
- `std`'s `BinaryHeap` and `Vec`: a heap is a map whose least index is its top, a vector a sequence with a capacity.
- `Shared`, stream and sink combinators, `Lines` and the other I/O adapters.
- Pinning, lifetimes, Send and Sync, vtables.
