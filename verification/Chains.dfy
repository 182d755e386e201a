/** Chains of nodes, as the two Vyukov queues build them with `next` pointers. */
module Chains {

  type Node = nat

  predicate NoDuplicates(q: seq<Node>) {
    forall i, j :: 0 <= i < j < |q| ==> q[i] != q[j]
  }

  function Members(q: seq<Node>): set<Node> { set n | n in q }

  lemma {:induction false} MembersOfDistinct(q: seq<Node>)
    requires NoDuplicates(q)
    ensures |Members(q)| == |q|
  {
    if q != [] {
      var rest := q[..|q| - 1];
      MembersOfDistinct(rest);
      assert q == rest + [q[|q| - 1]] && q[|q| - 1] !in rest;
      assert Members(q) == Members(rest) + {q[|q| - 1]};
    }
  }

  ghost predicate Adjacent(q: seq<Node>, p: Node, n: Node) {
    exists i :: 0 <= i < |q| - 1 && q[i] == p && q[i + 1] == n
  }

  lemma AdjacentAppend(q: seq<Node>, x: Node)
    ensures forall p, n :: Adjacent(q, p, n) ==> Adjacent(q + [x], p, n)
    ensures q != [] ==> Adjacent(q + [x], q[|q| - 1], x)
  {
    var q' := q + [x];
    forall p, n | Adjacent(q, p, n) ensures Adjacent(q', p, n) {
      var i :| 0 <= i < |q| - 1 && q[i] == p && q[i + 1] == n;
      assert q'[i] == p && q'[i + 1] == n;
    }
    if q != [] {
      var i := |q| - 1;
      assert q'[i] == q[|q| - 1] && q'[i + 1] == x;
    }
  }

  lemma AdjacentDropFirst(q: seq<Node>, p: Node, n: Node)
    requires Adjacent(q, p, n) && p != q[0]
    ensures Adjacent(q[1..], p, n)
  {
    var i :| 0 <= i < |q| - 1 && q[i] == p && q[i + 1] == n;
    assert q[1..][i - 1] == p && q[1..][i - 1 + 1] == n;
  }

  /** In a chain without duplicates a node has one successor and one predecessor. */
  lemma AdjacentInjective(q: seq<Node>, p: Node, n: Node, p': Node, n': Node)
    requires NoDuplicates(q) && Adjacent(q, p, n) && Adjacent(q, p', n')
    ensures p == p' <==> n == n'
  {
    var i :| 0 <= i < |q| - 1 && q[i] == p && q[i + 1] == n;
    var j :| 0 <= j < |q| - 1 && q[j] == p' && q[j + 1] == n';
    assert p == p' ==> i == j;
    assert n == n' ==> i + 1 == j + 1;
  }

  lemma AdjacentMembers(q: seq<Node>, p: Node, n: Node)
    requires Adjacent(q, p, n)
    ensures p in q && n in q
  {
  }

  lemma Regroup<T>(a: seq<T>, b: seq<T>, c: seq<T>)
    ensures a + (b + c) == (a + b) + c
  {
  }

  lemma FirstAndRest<T>(a: seq<T>)
    ensures a != [] ==> a == [a[0]] + a[1..]
  {
  }
}
