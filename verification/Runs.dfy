/** Names shared by all protocol models, and finite runs of a transition system.

    Every protocol below is a labelled transition system: a state, one label per atomic
    step of the source, and a `next` relation.  Steps of different threads interleave in
    any order; the memory is sequentially consistent. */
module Runs {

  /** A thread, or the task object a thread works on behalf of. */
  type Tid = nat

  /** A waker is known only by the task it wakes; two wakers with the same id `will_wake` each other. */
  type Waker = nat

  datatype Option<+T> = None | Some(value: T)

  datatype Poll<+T> = Pending | Ready(value: T)

  datatype Result<+T, +E> = Ok(value: T) | Err(error: E)

  /** Waker w has been called since the log of wake-ups had `mark` entries. */
  predicate WokenSince(log: seq<Waker>, mark: nat, w: Waker) { mark <= |log| && w in log[mark..] }

  lemma WokenStays(log: seq<Waker>, mark: nat, w: Waker, next: Waker)
    requires mark <= |log| && (WokenSince(log, mark, w) || next == w)
    ensures WokenSince(log + [next], mark, w)
  {
    if next == w {
      assert (log + [next])[mark..][|log| - mark] == w;
    } else {
      assert log[mark..] <= (log + [next])[mark..];
    }
  }

  /** A poll that returned Pending: its waker, and the number of wake-ups that had happened when it began. */
  datatype Suspended = Suspended(w: Waker, mark: nat)

  predicate Woken(log: seq<Waker>, x: Suspended) { WokenSince(log, x.mark, x.w) }

  /** The states a run goes through and the labels of the steps between them. */
  datatype Run<S, E> = Run(states: seq<S>, steps: seq<E>)

  ghost predicate IsRun<S(!new), E(!new)>(init: S -> bool, next: (S, E, S) -> bool, r: Run<S, E>) {
    && |r.states| == |r.steps| + 1
    && init(r.states[0])
    && forall i :: 0 <= i < |r.steps| ==> next(r.states[i], r.steps[i], r.states[i + 1])
  }

  function Extended<S, E>(r: Run<S, E>, e: E, s: S): Run<S, E> { Run(r.states + [s], r.steps + [e]) }

  lemma RunExtends<S(!new), E(!new)>(init: S -> bool, next: (S, E, S) -> bool, r: Run<S, E>, e: E, s: S)
    requires IsRun(init, next, r) && next(r.states[|r.steps|], e, s)
    ensures IsRun(init, next, Extended(r, e, s))
  {
  }

  /** What holds initially and is kept by every step holds in every state of every run. */
  lemma {:induction false} Invariance<S(!new), E(!new)>(
    init: S -> bool, next: (S, E, S) -> bool, inv: S -> bool, r: Run<S, E>, k: nat)
    requires IsRun(init, next, r)
    requires k < |r.states|
    requires forall s :: init(s) ==> inv(s)
    requires forall s, e, s' :: inv(s) && next(s, e, s') ==> inv(s')
    ensures inv(r.states[k])
  {
    if k > 0 {
      Invariance(init, next, inv, r, k - 1);
      assert next(r.states[k - 1], r.steps[k - 1], r.states[k - 1 + 1]);
    }
  }

  /** A predicate that holds in state `i` of a run and that each later step up to state `j` keeps, holds in state `j`. */
  lemma {:induction false} Persistence<S(!new), E(!new)>(keep: S -> bool, r: Run<S, E>, i: nat, j: nat)
    requires |r.states| == |r.steps| + 1
    requires i <= j < |r.states|
    requires keep(r.states[i])
    requires forall k :: i <= k < j && keep(r.states[k]) ==> keep(r.states[k + 1])
    ensures keep(r.states[j])
    decreases j - i
  {
    if i < j {
      assert keep(r.states[i + 1]);
      Persistence(keep, r, i + 1, j);
    }
  }

  /** What does not hold in state i of a run and holds in a later state k was made true by a step
      between them, the n-th, and has held ever since. */
  lemma {:induction false} Origin<S(!new), E(!new)>(p: S -> bool, r: Run<S, E>, i: nat, k: nat) returns (n: nat)
    requires |r.states| == |r.steps| + 1
    requires i <= k < |r.states| && !p(r.states[i]) && p(r.states[k])
    ensures i <= n < k && !p(r.states[n]) && p(r.states[n + 1]) && forall j :: n < j <= k ==> p(r.states[j])
  {
    if p(r.states[k - 1]) {
      n := Origin(p, r, i, k - 1);
    } else {
      n := k - 1;
      assert p(r.states[n + 1]);
    }
  }

  /** How many of the steps i..j of a run are of the kind `counts`. */
  ghost function Count<E(!new)>(counts: E -> bool, steps: seq<E>, i: nat, j: nat): nat
    requires i <= j <= |steps|
    decreases j - i
  {
    if i == j then 0 else Count(counts, steps, i, j - 1) + if counts(steps[j - 1]) then 1 else 0
  }

  /** A rank that no step raises, and that steps of one kind lower, has fallen by their number. */
  lemma {:induction false} RankFalls<S(!new), E(!new)>(
    keep: S -> bool, rank: S -> int, counts: E -> bool, r: Run<S, E>, i: nat, j: nat)
    requires |r.states| == |r.steps| + 1
    requires i <= j < |r.states|
    requires keep(r.states[i])
    requires forall k :: i <= k < j && keep(r.states[k]) ==>
               keep(r.states[k + 1]) && rank(r.states[k + 1]) + (if counts(r.steps[k]) then 1 else 0) <= rank(r.states[k])
    ensures keep(r.states[j]) && rank(r.states[j]) + Count(counts, r.steps, i, j) <= rank(r.states[i])
    decreases j - i
  {
    if i < j {
      RankFalls(keep, rank, counts, r, i, j - 1);
      assert keep(r.states[j - 1 + 1]);
    }
  }

  /** Some run ends in state s. */
  ghost predicate Reaches<S(!new), E(!new)>(init: S -> bool, next: (S, E, S) -> bool, s: S) {
    exists r: Run<S, E> :: IsRun(init, next, r) && r.states[|r.steps|] == s
  }

  lemma StartReached<S(!new), E(!new)>(init: S -> bool, next: (S, E, S) -> bool, s: S)
    requires init(s)
    ensures Reaches(init, next, s)
  {
    var r: Run<S, E> := Run([s], []);
    assert IsRun(init, next, r) && r.states[|r.steps|] == s;
  }

  lemma NextReached<S(!new), E(!new)>(init: S -> bool, next: (S, E, S) -> bool, s: S, e: E, s': S)
    requires Reaches(init, next, s) && next(s, e, s')
    ensures Reaches(init, next, s')
  {
    var r: Run<S, E> :| IsRun(init, next, r) && r.states[|r.steps|] == s;
    RunExtends(init, next, r, e, s');
    assert Extended(r, e, s').states[|Extended(r, e, s').steps|] == s';
  }
}
