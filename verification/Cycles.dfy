/** Walks, cycles and reachability in the edge list of a pipeline. */
module Cycles {
  import opened PipelineModel

  ghost predicate Linked(edges: seq<Edge>, u: Id, v: Id) {
    exists e :: e in edges && e.from.node == u && e.to.node == v
  }

  ghost predicate IsWalk(edges: seq<Edge>, walk: seq<Id>) {
    |walk| > 0 && forall i :: 0 <= i < |walk| - 1 ==> Linked(edges, walk[i], walk[i + 1])
  }

  ghost predicate IsCycle(edges: seq<Edge>, walk: seq<Id>) {
    |walk| > 1 && IsWalk(edges, walk) && walk[0] == walk[|walk| - 1]
  }

  ghost predicate HasCycle(edges: seq<Edge>) {
    exists walk :: IsCycle(edges, walk)
  }

  ghost predicate Reaches(edges: seq<Edge>, u: Id, v: Id) {
    exists walk :: IsWalk(edges, walk) && walk[0] == u && walk[|walk| - 1] == v
  }

  ghost predicate Distinct(ids: seq<Id>) {
    forall i, j :: 0 <= i < j < |ids| ==> ids[i] != ids[j]
  }

  ghost predicate SourceBeforeTarget(order: seq<Id>, e: Edge) {
    exists i, j :: 0 <= i < j < |order| && order[i] == e.from.node && order[j] == e.to.node
  }

  lemma {:induction false} DistinctSize(ids: seq<Id>, s: set<Id>)
    requires Distinct(ids)
    requires forall x :: x in ids ==> x in s
    ensures |ids| <= |s|
    ensures |ids| == |s| ==> forall x :: x in s ==> x in ids
  {
    if ids != [] {
      var last := ids[|ids| - 1];
      var init := ids[..|ids| - 1];
      DistinctSize(init, s - {last});
      forall x | |ids| == |s| && x in s ensures x in ids {
        if x != last {
          assert x in init;
        }
      }
    }
  }

  lemma {:induction false} Repetition(walk: seq<Id>, s: set<Id>) returns (i: nat, j: nat)
    requires forall x :: x in walk ==> x in s
    requires |walk| > |s|
    ensures i < j < |walk| && walk[i] == walk[j]
  {
    if Distinct(walk) {
      DistinctSize(walk, s);
      assert false;
    }
    i, j :| 0 <= i < j < |walk| && walk[i] == walk[j];
  }

  ghost predicate PredecessorIn(edges: seq<Edge>, s: set<Id>, v: Id) {
    exists e :: e in edges && e.to.node == v && e.from.node in s
  }

  /** Following predecessors inside `s` for `n` steps. */
  lemma {:induction false} BackwardWalk(edges: seq<Edge>, s: set<Id>, n: nat) returns (walk: seq<Id>)
    requires s != {}
    requires forall v :: v in s ==> PredecessorIn(edges, s, v)
    ensures |walk| == n + 1 && IsWalk(edges, walk)
    ensures forall x :: x in walk ==> x in s
  {
    if n == 0 {
      var v :| v in s;
      walk := [v];
    } else {
      var rest := BackwardWalk(edges, s, n - 1);
      assert PredecessorIn(edges, s, rest[0]);
      var e :| e in edges && e.to.node == rest[0] && e.from.node in s;
      walk := [e.from.node] + rest;
      LongerWalk(edges, e, rest);
    }
  }

  lemma LongerWalk(edges: seq<Edge>, e: Edge, rest: seq<Id>)
    requires IsWalk(edges, rest) && e in edges && e.to.node == rest[0]
    ensures IsWalk(edges, [e.from.node] + rest)
  {
    var walk := [e.from.node] + rest;
    forall i | 0 <= i < |walk| - 1 ensures Linked(edges, walk[i], walk[i + 1]) {
      if i > 0 {
        assert Linked(edges, rest[i - 1], rest[i - 1 + 1]);
      }
    }
  }

  lemma SubWalk(edges: seq<Edge>, walk: seq<Id>, i: nat, j: nat)
    requires IsWalk(edges, walk) && i < j <= |walk|
    ensures IsWalk(edges, walk[i..j])
  {
    var part := walk[i..j];
    forall k | 0 <= k < |part| - 1 ensures Linked(edges, part[k], part[k + 1]) {
      assert Linked(edges, walk[i + k], walk[i + k + 1]);
    }
  }

  /** A finite set in which every node has a predecessor contains a cycle. */
  lemma SourceFreeSetHasCycle(edges: seq<Edge>, s: set<Id>)
    requires s != {}
    requires forall v :: v in s ==> PredecessorIn(edges, s, v)
    ensures HasCycle(edges)
  {
    var walk := BackwardWalk(edges, s, |s|);
    var i, j := Repetition(walk, s);
    SubWalk(edges, walk, i, j + 1);
    assert IsCycle(edges, walk[i..j + 1]);
  }

  /** An order in which every edge points forward leaves no cycle. */
  lemma ForwardOrderIsAcyclic(edges: seq<Edge>, order: seq<Id>)
    requires Distinct(order)
    requires forall e :: e in edges ==> SourceBeforeTarget(order, e)
    ensures !HasCycle(edges)
  {
    if HasCycle(edges) {
      var walk :| IsCycle(edges, walk);
      var first, last := Advances(edges, order, walk);
      assert false;
    }
  }

  lemma {:induction false} Advances(edges: seq<Edge>, order: seq<Id>, walk: seq<Id>) returns (first: nat, last: nat)
    requires Distinct(order)
    requires forall e :: e in edges ==> SourceBeforeTarget(order, e)
    requires |walk| > 1 && IsWalk(edges, walk)
    ensures first < last < |order| && order[first] == walk[0] && order[last] == walk[|walk| - 1]
  {
    var n := |walk|;
    assert Linked(edges, walk[n - 2], walk[n - 2 + 1]);
    var e :| e in edges && e.from.node == walk[n - 2] && e.to.node == walk[n - 1];
    assert SourceBeforeTarget(order, e);
    var i, j :| 0 <= i < j < |order| && order[i] == e.from.node && order[j] == e.to.node;
    if n == 2 {
      first, last := i, j;
    } else {
      var init := walk[..n - 1];
      SubWalk(edges, walk, 0, n - 1);
      var f, l := Advances(edges, order, init);
      assert l == i;
      first, last := f, j;
    }
  }

  /** A set closed under successors contains everything reachable from its members. */
  lemma {:induction false} ClosedUnderWalks(edges: seq<Edge>, s: set<Id>, walk: seq<Id>)
    requires forall e :: e in edges && e.from.node in s ==> e.to.node in s
    requires IsWalk(edges, walk) && walk[0] in s
    ensures walk[|walk| - 1] in s
  {
    if |walk| > 1 {
      assert Linked(edges, walk[0], walk[0 + 1]);
      SubWalk(edges, walk, 1, |walk|);
      ClosedUnderWalks(edges, s, walk[1..]);
    }
  }

  lemma ReachesItself(edges: seq<Edge>, u: Id)
    ensures Reaches(edges, u, u)
  {
    var walk := [u];
    assert IsWalk(edges, walk);
    assert walk[0] == u && walk[|walk| - 1] == u;
  }

  lemma ReachesNext(edges: seq<Edge>, u: Id, e: Edge)
    requires Reaches(edges, u, e.from.node) && e in edges
    ensures Reaches(edges, u, e.to.node)
  {
    var walk :| IsWalk(edges, walk) && walk[0] == u && walk[|walk| - 1] == e.from.node;
    var longer := walk + [e.to.node];
    forall k | 0 <= k < |longer| - 1 ensures Linked(edges, longer[k], longer[k + 1]) {
      if k < |walk| - 1 {
        assert Linked(edges, walk[k], walk[k + 1]);
      }
    }
    assert IsWalk(edges, longer) && longer[0] == u && longer[|longer| - 1] == e.to.node;
  }
}
