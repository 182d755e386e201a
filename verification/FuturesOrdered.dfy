/** futures-util/src/stream/futures_ordered.rs: a deque of futures whose outputs come out in
    deque order, whatever the order in which they complete.

    A future is known by the output it will resolve to.  `FuturesUnordered` is what its own
    module shows it to be from outside: a set that hands out completed members in any order. */
module FuturesOrdereds {
  import opened Runs

  /** What a user of the queue sees happen. */
  datatype Event<T> = PushedBack(x: T) | PushedFront(x: T) | Cleared | Yielded(x: T) | Finished

  /** `in_progress_queue` and `queued_outputs` by index; `polling` is true inside the loop of poll_next. */
  datatype State<T> = State(
    inProgress: map<int, T>, queued: map<int, T>, incoming: int, outgoing: int, polling: bool, events: seq<Event<T>>)

  function Init<T>(): State<T> { State(map[], map[], 0, 0, false, []) }

  function Note<T>(s: State<T>, e: Event<T>): State<T> { s.(events := s.events + [e]) }

  function DoPushBack<T>(s: State<T>, x: T): State<T> {
    Note(s.(inProgress := s.inProgress[s.incoming := x], incoming := s.incoming + 1), PushedBack(x))
  }

  function DoPushFront<T>(s: State<T>, x: T): State<T> {
    Note(s.(inProgress := s.inProgress[s.outgoing - 1 := x], outgoing := s.outgoing - 1), PushedFront(x))
  }

  function DoClear<T>(s: State<T>): State<T> {
    Note(s.(inProgress := map[], queued := map[], incoming := 0, outgoing := 0), Cleared)
  }

  /** `peek_mut`: the queued output with the lowest index, as `Ord::cmp` is backwards. */
  predicate IsTop<T>(queued: map<int, T>, i: int) { i in queued && forall j :: j in queued ==> i <= j }

  /** The check before the loop: pops the top if it is the next one. */
  function DoBeginPoll<T>(s: State<T>, top: int): State<T>
    requires s.queued != map[] ==> IsTop(s.queued, top)
  {
    if s.queued != map[] && top == s.outgoing then
      Note(s.(queued := s.queued - {top}, outgoing := s.outgoing + 1), Yielded(s.queued[top]))
    else
      s.(polling := true)
  }

  /** A round of the loop in which future i has completed. */
  function DoComplete<T>(s: State<T>, i: int): State<T>
    requires i in s.inProgress
  {
    var x, s' := s.inProgress[i], s.(inProgress := s.inProgress - {i});
    if i == s.outgoing then Note(s'.(outgoing := s.outgoing + 1, polling := false), Yielded(x))
    else s'.(queued := s.queued[i := x])
  }

  function DoPending<T>(s: State<T>): State<T> { s.(polling := false) }

  function DoNone<T>(s: State<T>): State<T> { Note(s.(polling := false), Finished) }

  datatype Step<T> =
    | PushBack(x: T) | PushFront(x: T) | Clear | BeginPoll(top: int) | Complete(i: int) | InnerPending | InnerNone

  predicate Enabled<T>(s: State<T>, e: Step<T>) {
    match e
    case PushBack(_) => !s.polling
    case PushFront(_) => !s.polling
    case Clear => !s.polling
    case BeginPoll(top) => !s.polling && (s.queued != map[] ==> IsTop(s.queued, top))
    case Complete(i) => s.polling && i in s.inProgress
    case InnerPending => s.polling && s.inProgress != map[]
    case InnerNone => s.polling && s.inProgress == map[]
  }

  function Apply<T>(s: State<T>, e: Step<T>): State<T>
    requires Enabled(s, e)
  {
    match e
    case PushBack(x) => DoPushBack(s, x)
    case PushFront(x) => DoPushFront(s, x)
    case Clear => DoClear(s)
    case BeginPoll(top) => DoBeginPoll(s, top)
    case Complete(i) => DoComplete(s, i)
    case InnerPending => DoPending(s)
    case InnerNone => DoNone(s)
  }

  ghost predicate IsInit<T>(s: State<T>) { s == Init<T>() }

  ghost predicate Next<T>(s: State<T>, e: Step<T>, s': State<T>) { Enabled(s, e) && s' == Apply(s, e) }

  // ----- the window -----

  /** In progress and queued together are exactly the indices from outgoing to incoming. */
  ghost predicate Window<T>(s: State<T>) {
    && s.outgoing <= s.incoming
    && s.inProgress.Keys !! s.queued.Keys
    && (forall i :: s.outgoing <= i < s.incoming <==> i in s.inProgress || i in s.queued)
    && (s.polling ==> s.outgoing !in s.queued)
  }

  function Held<T>(s: State<T>, i: int): T
    requires i in s.inProgress || i in s.queued
  {
    if i in s.inProgress then s.inProgress[i] else s.queued[i]
  }

  /** The deque: what is held, by index. */
  ghost function Contents<T>(s: State<T>): (q: seq<T>)
    requires Window(s)
    ensures |q| == s.incoming - s.outgoing
    ensures forall k :: 0 <= k < |q| ==> q[k] == Held(s, s.outgoing + k)
  {
    seq(s.incoming - s.outgoing, k requires 0 <= k < s.incoming - s.outgoing => Held(s, s.outgoing + k))
  }

  /** The deque the events describe, if they are those of a deque: an output is yielded from
      the front, and the end is announced only when nothing is held. */
  ghost function Replay<T>(events: seq<Event<T>>): Option<seq<T>> {
    if events == [] then Some([])
    else
      var q := Replay(events[..|events| - 1]);
      if q == None then None
      else match events[|events| - 1]
           case PushedBack(x) => Some(q.value + [x])
           case PushedFront(x) => Some([x] + q.value)
           case Cleared => Some([])
           case Yielded(x) => if q.value != [] && q.value[0] == x then Some(q.value[1..]) else None
           case Finished => if q.value == [] then q else None
  }

  lemma ReplayNote<T>(events: seq<Event<T>>, e: Event<T>)
    ensures (events + [e])[..|events|] == events
  {
  }

  ghost predicate Inv<T>(s: State<T>) { Window(s) && Replay(s.events) == Some(Contents(s)) }

  lemma KeepsPushBack<T>(s: State<T>, x: T)
    requires Inv(s) && Enabled(s, PushBack(x))
    ensures Inv(DoPushBack(s, x)) && Contents(DoPushBack(s, x)) == Contents(s) + [x]
  {
    ReplayNote(s.events, PushedBack(x));
    assert Contents(DoPushBack(s, x)) == Contents(s) + [x];
  }

  lemma KeepsPushFront<T>(s: State<T>, x: T)
    requires Inv(s) && Enabled(s, PushFront(x))
    ensures Inv(DoPushFront(s, x)) && Contents(DoPushFront(s, x)) == [x] + Contents(s)
  {
    ReplayNote(s.events, PushedFront(x));
    assert Contents(DoPushFront(s, x)) == [x] + Contents(s);
  }

  lemma KeepsClear<T>(s: State<T>)
    requires Inv(s) && Enabled(s, Clear)
    ensures Inv(DoClear(s)) && Contents(DoClear(s)) == []
  {
    ReplayNote(s.events, Cleared);
  }

  lemma KeepsBeginPoll<T>(s: State<T>, top: int)
    requires Inv(s) && Enabled(s, BeginPoll(top))
    ensures Inv(DoBeginPoll(s, top))
    ensures DoBeginPoll(s, top).polling ==> Contents(DoBeginPoll(s, top)) == Contents(s)
    ensures !DoBeginPoll(s, top).polling ==> s.queued != map[] && top in s.queued && Contents(s) == [s.queued[top]] + Contents(DoBeginPoll(s, top))
  {
    var s' := DoBeginPoll(s, top);
    if s'.polling {
      assert s.outgoing in s.queued ==> s.queued != map[];
      assert Contents(s') == Contents(s);
    } else {
      ReplayNote(s.events, Yielded(s.queued[top]));
      assert Contents(s)[0] == s.queued[top];
      assert Contents(s)[1..] == Contents(s');
    }
  }

  lemma CompletesFront<T>(s: State<T>)
    requires Inv(s) && Enabled(s, Complete(s.outgoing))
    ensures Inv(DoComplete(s, s.outgoing))
    ensures Contents(s) == [s.inProgress[s.outgoing]] + Contents(DoComplete(s, s.outgoing))
  {
    var s' := DoComplete(s, s.outgoing);
    ReplayNote(s.events, Yielded(s.inProgress[s.outgoing]));
    assert Window(s');
    assert Contents(s)[0] == s.inProgress[s.outgoing];
    assert Contents(s)[1..] == Contents(s');
  }

  lemma CompletesOther<T>(s: State<T>, i: int)
    requires Inv(s) && Enabled(s, Complete(i)) && i != s.outgoing
    ensures Inv(DoComplete(s, i)) && Contents(DoComplete(s, i)) == Contents(s)
  {
    var s' := DoComplete(s, i);
    assert Window(s');
    assert Contents(s') == Contents(s);
  }

  lemma KeepsComplete<T>(s: State<T>, i: int)
    requires Inv(s) && Enabled(s, Complete(i))
    ensures Inv(DoComplete(s, i))
    ensures i != s.outgoing ==> Contents(DoComplete(s, i)) == Contents(s)
    ensures i == s.outgoing ==> Contents(s) == [s.inProgress[i]] + Contents(DoComplete(s, i))
  {
    if i == s.outgoing { CompletesFront(s); } else { CompletesOther(s, i); }
  }

  lemma NoKeys<T>(m: map<int, T>)
    requires forall i :: i !in m
    ensures m == map[]
  {
    var none: map<int, T> := map[];
    assert forall i :: i in m <==> i in none;
  }

  lemma EmptyWindow<T>(s: State<T>)
    requires Window(s)
    ensures s.outgoing == s.incoming ==> s.inProgress == map[]
    ensures s.inProgress == map[] && s.outgoing !in s.queued ==> s.outgoing == s.incoming
  {
    if s.outgoing == s.incoming { assert forall i :: i !in s.inProgress; }
  }

  lemma KeepsEnd<T>(s: State<T>, e: Step<T>)
    requires Inv(s) && Enabled(s, e) && (e.InnerPending? || e.InnerNone?)
    ensures Inv(Apply(s, e)) && Contents(Apply(s, e)) == Contents(s)
    ensures e.InnerNone? ==> Contents(s) == []
    ensures e.InnerPending? ==> Contents(s) != []
  {
    assert Contents(Apply(s, e)) == Contents(s);
    EmptyWindow(s);
    if e.InnerNone? { ReplayNote(s.events, Finished); }
  }

  lemma KeepsInv<T>(s: State<T>, e: Step<T>)
    requires Inv(s) && Enabled(s, e)
    ensures Inv(Apply(s, e))
  {
    match e
    case PushBack(x) => KeepsPushBack(s, x);
    case PushFront(x) => KeepsPushFront(s, x);
    case Clear => KeepsClear(s);
    case BeginPoll(top) => KeepsBeginPoll(s, top);
    case Complete(i) => KeepsComplete(s, i);
    case InnerPending => KeepsEnd(s, e);
    case InnerNone => KeepsEnd(s, e);
  }

  /** Over every mix of pushes, clears and polls, and every order in which futures complete,
      the outputs yielded are those of a deque, and `Ready(None)` is returned only when nothing
      is held; the indices in progress and queued are at all times those of the window. */
  lemma OutputsInDequeOrder<T(!new)>(r: Run<State<T>, Step<T>>, k: nat)
    requires IsRun<State<T>, Step<T>>(IsInit, Next, r) && k < |r.states|
    ensures Window(r.states[k]) && Replay(r.states[k].events) == Some(Contents(r.states[k]))
  {
    forall s: State<T> | IsInit(s) ensures Inv(s) { assert Contents(s) == []; }
    forall s: State<T>, e: Step<T>, s': State<T> | Inv(s) && Next(s, e, s') ensures Inv(s') { KeepsInv(s, e); }
    Invariance<State<T>, Step<T>>(IsInit, Next, Inv, r, k);
  }

  /** A call of poll_next goes on until it yields an output, announces the end, or the set of
      futures in progress has answered Pending: only then is it over without an event. */
  lemma PendingOnlyIfInnerPends<T(!new)>(r: Run<State<T>, Step<T>>, i: nat)
    requires IsRun<State<T>, Step<T>>(IsInit, Next, r) && i < |r.steps|
    requires r.states[i].polling || r.steps[i].BeginPoll?
    ensures var s, s' := r.states[i], r.states[i + 1];
            || s'.polling
            || (s'.events != [] && s'.events[..|s'.events| - 1] == s.events && (s'.events[|s.events|].Yielded? || s'.events[|s.events|].Finished?))
            || (r.steps[i].InnerPending? && s.inProgress != map[] && s' == s.(polling := false))
  {
    var s, e, s' := r.states[i], r.steps[i], r.states[i + 1];
    assert Next(s, e, s');
    match e
    case BeginPoll(top) => case Complete(j) => case InnerPending => case InnerNone =>
  }

  lemma TopExists<T>(queued: map<int, T>)
    ensures queued == map[] || exists i :: IsTop(queued, i)
    decreases |queued|
  {
    if i :| i in queued {
      var rest := queued - {i};
      assert queued.Keys == rest.Keys + {i};
      TopExists(rest);
      assert forall j :: j in queued ==> j == i || j in rest;
      if rest == map[] {
        assert IsTop(queued, i);
      } else {
        var k :| IsTop(rest, k);
        assert IsTop(queued, if i < k then i else k);
      }
    } else {
      NoKeys(queued);
    }
  }

  // ----- the objects -----

  const MAX_I64: int := 0x7FFF_FFFF_FFFF_FFFF
  const MIN_I64: int := -0x8000_0000_0000_0000

  /** `FuturesUnordered<OrderWrapper<T>>`, from outside. */
  class InProgress<T> {
    var futures: map<int, T>
    ghost var answers: seq<Poll<Option<(int, T)>>>    // what PollNext has returned so far

    constructor ()
      ensures futures == map[] && answers == []
    {
      futures, answers := map[], [];
    }

    /** Any member may be the next to complete, or none for now. */
    method PollNext() returns (p: Poll<Option<(int, T)>>)
      modifies this
      ensures p.Pending? ==> futures == old(futures) != map[]
      ensures p == Ready(None) ==> futures == old(futures) == map[]
      ensures p.Ready? && p.value.Some? ==>
                p.value.value.0 in old(futures) && p.value.value.1 == old(futures)[p.value.value.0] && futures == old(futures) - {p.value.value.0}
      ensures answers == old(answers) + [p]
    {
      if i :| i in futures {
        if * {
          p := Pending;
        } else {
          p := Ready(Some((i, futures[i])));
          futures := futures - {i};
        }
      } else {
        NoKeys(futures);
        p := Ready(None);
      }
      answers := answers + [p];
    }
  }

  class FuturesOrdered<T> {
    const inProgressQueue: InProgress<T>
    var queuedOutputs: map<int, T>
    var nextIncomingIndex: int
    var nextOutgoingIndex: int
    ghost var events: seq<Event<T>>
    ghost var polling: bool

    ghost function View(): State<T>
      reads this, inProgressQueue
    {
      State(inProgressQueue.futures, queuedOutputs, nextIncomingIndex, nextOutgoingIndex, polling, events)
    }

    ghost predicate Valid()
      reads this, inProgressQueue
    {
      Inv(View()) && !polling
    }

    ghost function Deque(): seq<T>
      requires Valid()
      reads this, inProgressQueue
    {
      Contents(View())
    }

    constructor ()
      ensures Valid() && Deque() == [] && events == [] && fresh(inProgressQueue)
    {
      inProgressQueue := new InProgress<T>();
      queuedOutputs, nextIncomingIndex, nextOutgoingIndex := map[], 0, 0;
      events, polling := [], false;
    }

    method PushBack(x: T)
      requires Valid() && nextIncomingIndex < MAX_I64
      modifies this, inProgressQueue
      ensures View() == DoPushBack(old(View()), x) && Valid() && Deque() == old(Deque()) + [x]
    {
      KeepsPushBack(View(), x);
      inProgressQueue.futures := inProgressQueue.futures[nextIncomingIndex := x];
      nextIncomingIndex := nextIncomingIndex + 1;
      events := events + [PushedBack(x)];
    }

    method PushFront(x: T)
      requires Valid() && MIN_I64 < nextOutgoingIndex
      modifies this, inProgressQueue
      ensures View() == DoPushFront(old(View()), x) && Valid() && Deque() == [x] + old(Deque())
    {
      KeepsPushFront(View(), x);
      inProgressQueue.futures := inProgressQueue.futures[nextOutgoingIndex - 1 := x];
      nextOutgoingIndex := nextOutgoingIndex - 1;
      events := events + [PushedFront(x)];
    }

    method Clear()
      requires Valid()
      modifies this, inProgressQueue
      ensures View() == DoClear(old(View())) && Valid() && Deque() == []
    {
      KeepsClear(View());
      inProgressQueue.futures := map[];
      queuedOutputs, nextIncomingIndex, nextOutgoingIndex := map[], 0, 0;
      events := events + [Cleared];
    }

    /** `peek_mut`. */
    method Peek() returns (top: Option<int>)
      ensures top == None <==> queuedOutputs == map[]
      ensures top.Some? ==> IsTop(queuedOutputs, top.value)
    {
      if queuedOutputs == map[] {
        return None;
      }
      TopExists(queuedOutputs);
      var i :| i in queuedOutputs && forall j :: j in queuedOutputs ==> i <= j;
      top := Some(i);
    }

    /** Yields the front of the deque, reports that it has not completed, or that there is none. */
    method PollNext() returns (p: Poll<Option<T>>)
      requires Valid()
      modifies this, inProgressQueue
      ensures Valid() && Answers(p, old(Deque()), Deque(), old(events), events)
      ensures old(nextOutgoingIndex in queuedOutputs) ==> p.Ready? && p.value.Some? && inProgressQueue.answers == old(inProgressQueue.answers)
      ensures !old(nextOutgoingIndex in queuedOutputs) ==> Follows(p, old(nextOutgoingIndex), old(inProgressQueue.answers), inProgressQueue.answers)
    {
      var top := Peek();
      ghost var s := View();
      KeepsBeginPoll(s, if top.Some? then top.value else 0);
      if top.Some? {
        if top.value == nextOutgoingIndex {
          var x := queuedOutputs[top.value];
          queuedOutputs := queuedOutputs - {top.value};
          nextOutgoingIndex := nextOutgoingIndex + 1;
          events := events + [Yielded(x)];
          assert View() == DoBeginPoll(s, top.value);
          return Ready(Some(x));
        }
      }
      assert nextOutgoingIndex !in queuedOutputs;
      polling := true;
      assert View() == DoBeginPoll(s, if top.Some? then top.value else 0);
      p := PollInner();
    }

    /** The loop of `poll_next`. */
    method PollInner() returns (p: Poll<Option<T>>)
      requires Inv(View()) && polling
      modifies this, inProgressQueue
      ensures Valid() && Answers(p, old(Contents(View())), Deque(), old(events), events)
      ensures Follows(p, old(nextOutgoingIndex), old(inProgressQueue.answers), inProgressQueue.answers)
    {
      ghost var before := inProgressQueue.answers;
      while true
        invariant nextOutgoingIndex == old(nextOutgoingIndex)
        invariant |before| <= |inProgressQueue.answers| && inProgressQueue.answers[..|before|] == before
        invariant forall k :: |before| <= k < |inProgressQueue.answers| ==> OutOfTurn(inProgressQueue.answers[k], nextOutgoingIndex)
        invariant Inv(View()) && polling && events == old(events) && Contents(View()) == old(Contents(View()))
        decreases inProgressQueue.futures.Keys
      {
        ghost var s := View();
        var q := inProgressQueue.PollNext();
        if q.Pending? {
          KeepsEnd(s, InnerPending);
          polling := false;
          return Pending;
        }
        if q.value == None {
          KeepsEnd(s, InnerNone);
          polling := false;
          events := events + [Finished];
          return Ready(None);
        }
        var (i, x) := q.value.value;
        KeepsComplete(s, i);
        if i == nextOutgoingIndex {
          nextOutgoingIndex := nextOutgoingIndex + 1;
          polling := false;
          events := events + [Yielded(x)];
          assert View() == DoComplete(s, i);
          return Ready(Some(x));
        }
        queuedOutputs := queuedOutputs[i := x];
        assert View() == DoComplete(s, i);
        assert i in s.inProgress.Keys && i !in inProgressQueue.futures.Keys;
      }
    }
  }

  /** The set has handed out an output that is not the next one. */
  predicate OutOfTurn<T>(a: Poll<Option<(int, T)>>, next: int) { a.Ready? && a.value.Some? && a.value.value.0 != next }

  /** poll_next answers what the set answered in its last round, Pending, None, or the output
      whose turn it is; in every earlier round an output came out of turn. */
  ghost predicate Follows<T>(p: Poll<Option<T>>, next: int, before: seq<Poll<Option<(int, T)>>>, after: seq<Poll<Option<(int, T)>>>) {
    && |before| < |after| && after[..|before|] == before
    && (forall k :: |before| <= k < |after| - 1 ==> OutOfTurn(after[k], next))
    && match p
       case Pending => after[|after| - 1] == Pending
       case Ready(None) => after[|after| - 1] == Ready(None)
       case Ready(Some(x)) => after[|after| - 1] == Ready(Some((next, x)))
  }

  /** What an answer of poll_next says about the deque before and after. */
  ghost predicate Answers<T>(p: Poll<Option<T>>, before: seq<T>, after: seq<T>, eventsBefore: seq<Event<T>>, eventsAfter: seq<Event<T>>) {
    match p
    case Ready(Some(x)) => before == [x] + after && eventsAfter == eventsBefore + [Yielded(x)]
    case Ready(None) => before == after == [] && eventsAfter == eventsBefore + [Finished]
    case Pending => before == after != [] && eventsAfter == eventsBefore
  }
}
