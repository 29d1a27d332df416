/** Three-way merge of independent edits (packages/pipeline-control/collaboration.ts). */
module Collaboration {
  import opened Wrappers
  import opened PipelineModel
  import opened Inspection

  datatype Conflict = RevisionConflict

  /* ---------- the merge, as a function of the three graphs ---------- */

  function Incident(edges: seq<Edge>, id: Id): seq<Edge> {
    if edges == [] then []
    else
      var rest := Incident(edges[..|edges| - 1], id);
      var e := edges[|edges| - 1];
      if e.from.node == id || e.to.node == id then rest + [e] else rest
  }

  predicate BothChanged<T(==)>(base: T, incoming: T, current: T) {
    incoming != base && current != base && current != incoming
  }

  /** A locally changed node must be unchanged, or changed alike, remotely, with its remote wiring unchanged. */
  predicate NodeConflict(base: Graph, incoming: Graph, current: Graph, id: Id) {
    var was, local, remote := FindNode(base.nodes, id), FindNode(incoming.nodes, id), FindNode(current.nodes, id);
    was != local
    && ((was != remote && local != remote) || Incident(base.edges, id) != Incident(current.edges, id))
  }

  predicate OnOneSideOnly(base: seq<Edge>, incoming: seq<Edge>, e: Edge) {
    e !in base || e !in incoming
  }

  /** Ends of the edges that were locally added or removed. */
  function AffectedIds(base: seq<Edge>, incoming: seq<Edge>): set<Id> {
    (set e | e in base + incoming && OnOneSideOnly(base, incoming, e) :: e.from.node)
    + (set e | e in base + incoming && OnOneSideOnly(base, incoming, e) :: e.to.node)
  }

  predicate EdgeConflict(base: Graph, incoming: Graph, current: Graph) {
    base.edges != incoming.edges
    && ((base.edges != current.edges && incoming.edges != current.edges)
        || exists id :: id in AffectedIds(base.edges, incoming.edges) && FindNode(base.nodes, id) != FindNode(current.nodes, id))
  }

  function CandidateIds(base: Graph, incoming: Graph): seq<Id> {
    Keys(base.nodes + incoming.nodes)
  }

  ghost predicate Conflicting(base: Graph, incoming: Graph, current: Graph) {
    || base.id != incoming.id
    || base.id != current.id
    || BothChanged(base.name, incoming.name, current.name)
    || BothChanged(base.schema, incoming.schema, current.schema)
    || (exists id :: id in CandidateIds(base, incoming) && NodeConflict(base, incoming, current, id))
    || EdgeConflict(base, incoming, current)
  }

  function WithoutNode(nodes: seq<Node>, id: Id): seq<Node> {
    if nodes == [] then []
    else if nodes[0].id == id then WithoutNode(nodes[1..], id)
    else [nodes[0]] + WithoutNode(nodes[1..], id)
  }

  /** Replaces the first node with this id, or appends. */
  function ReplaceOrAppend(nodes: seq<Node>, n: Node): seq<Node> {
    if nodes == [] then [n]
    else if nodes[0].id == n.id then [n] + nodes[1..]
    else [nodes[0]] + ReplaceOrAppend(nodes[1..], n)
  }

  function PutNode(nodes: seq<Node>, id: Id, local: Option<Node>): seq<Node> {
    match local
    case None => WithoutNode(nodes, id)
    case Some(n) => ReplaceOrAppend(nodes, n)
  }

  function MergeNodes(ids: seq<Id>, base: seq<Node>, incoming: seq<Node>, current: seq<Node>): seq<Node> {
    if ids == [] then current
    else
      var done := MergeNodes(ids[..|ids| - 1], base, incoming, current);
      var id := ids[|ids| - 1];
      if FindNode(base, id) == FindNode(incoming, id) then done else PutNode(done, id, FindNode(incoming, id))
  }

  function ThreeWay<T(==)>(base: T, incoming: T, current: T): T {
    if incoming == base then current else incoming
  }

  ghost function Merge(base: Graph, incoming: Graph, current: Graph): Result<Graph, Conflict> {
    if Conflicting(base, incoming, current) then Failure(RevisionConflict)
    else
      Success(Graph(current.id,
                    ThreeWay(base.schema, incoming.schema, current.schema),
                    ThreeWay(base.name, incoming.name, current.name),
                    MergeNodes(CandidateIds(base, incoming), base.nodes, incoming.nodes, current.nodes),
                    ThreeWay(base.edges, incoming.edges, current.edges)))
  }

  /* ---------- the code ---------- */

  method FindIndex(nodes: seq<Node>, id: Id) returns (index: int)
    ensures -1 <= index < |nodes|
    ensures index >= 0 ==> nodes[index].id == id
    ensures forall j :: 0 <= j < (if index < 0 then |nodes| else index) ==> nodes[j].id != id
  {
    for i := 0 to |nodes|
      invariant forall j :: 0 <= j < i ==> nodes[j].id != id
    {
      if nodes[i].id == id {
        return i;
      }
    }
    return -1;
  }

  lemma {:induction false} ReplaceAt(nodes: seq<Node>, n: Node, i: nat)
    requires i <= |nodes| && forall j :: 0 <= j < i ==> nodes[j].id != n.id
    requires i < |nodes| ==> nodes[i].id == n.id
    ensures ReplaceOrAppend(nodes, n) == if i < |nodes| then nodes[i := n] else nodes + [n]
  {
    if i > 0 {
      assert nodes[0].id != n.id;
      ReplaceAt(nodes[1..], n, i - 1);
    }
  }

  /** Removes, replaces in place or appends one node. */
  method ApplyNodeChange(nodes: seq<Node>, id: Id, local: Option<Node>) returns (r: seq<Node>)
    requires local.Some? ==> local.value.id == id
    ensures r == PutNode(nodes, id, local)
  {
    if local.None? {
      return WithoutNode(nodes, id);
    }
    var index := FindIndex(nodes, id);
    ReplaceAt(nodes, local.value, if index < 0 then |nodes| else index);
    r := if index < 0 then nodes + [local.value] else nodes[index := local.value];
  }

  /** The loop over the ids of the base and incoming graphs. */
  method MergeNodeChanges(base: Graph, incoming: Graph, current: Graph) returns (r: Result<seq<Node>, Conflict>)
    ensures r == if exists id :: id in CandidateIds(base, incoming) && NodeConflict(base, incoming, current, id)
                 then Failure(RevisionConflict)
                 else Success(MergeNodes(CandidateIds(base, incoming), base.nodes, incoming.nodes, current.nodes))
  {
    var ids := CandidateIds(base, incoming);
    var nodes := current.nodes;
    for i := 0 to |ids|
      invariant forall j :: 0 <= j < i ==> !NodeConflict(base, incoming, current, ids[j])
      invariant nodes == MergeNodes(ids[..i], base.nodes, incoming.nodes, current.nodes)
    {
      var id := ids[i];
      var was, local, remote := FindNode(base.nodes, id), FindNode(incoming.nodes, id), FindNode(current.nodes, id);
      assert ids[..i + 1][..i] == ids[..i];
      if was != local {
        if (was != remote && local != remote) || Incident(base.edges, id) != Incident(current.edges, id) {
          assert NodeConflict(base, incoming, current, id);
          return Failure(RevisionConflict);
        }
        nodes := ApplyNodeChange(nodes, id, local);
      }
    }
    assert ids[..|ids|] == ids;
    return Success(nodes);
  }

  /** The edge list of the only side that changed it, if no node it touches changed under it. */
  method MergeEdgeLists(base: Graph, incoming: Graph, current: Graph) returns (r: Result<seq<Edge>, Conflict>)
    ensures r == if EdgeConflict(base, incoming, current) then Failure(RevisionConflict)
                 else Success(ThreeWay(base.edges, incoming.edges, current.edges))
  {
    if base.edges != incoming.edges {
      if base.edges != current.edges && incoming.edges != current.edges {
        return Failure(RevisionConflict);
      }
      var affected := AffectedIds(base.edges, incoming.edges);
      if exists id :: id in affected && FindNode(base.nodes, id) != FindNode(current.nodes, id) {
        return Failure(RevisionConflict);
      }
      return Success(incoming.edges);
    }
    return Success(current.edges);
  }

  method MergeIndependentGraph(base: Graph, incoming: Graph, current: Graph) returns (r: Result<Graph, Conflict>)
    ensures r == Merge(base, incoming, current)
  {
    if base.id != incoming.id || base.id != current.id {
      return Failure(RevisionConflict);
    }
    var result := current;
    if incoming.name != base.name {
      if current.name != base.name && current.name != incoming.name {
        return Failure(RevisionConflict);
      }
      result := result.(name := incoming.name);
    }
    if incoming.schema != base.schema {
      if current.schema != base.schema && current.schema != incoming.schema {
        return Failure(RevisionConflict);
      }
      result := result.(schema := incoming.schema);
    }
    var merged := MergeNodeChanges(base, incoming, current);
    if merged.Failure? {
      return Failure(RevisionConflict);
    }
    var edges := MergeEdgeLists(base, incoming, current);
    if edges.Failure? {
      return Failure(RevisionConflict);
    }
    return Success(result.(nodes := merged.value, edges := edges.value));
  }

  /* ---------- what a successful merge is ---------- */

  lemma {:induction false} FindWithout(nodes: seq<Node>, id: Id, x: Id)
    ensures FindNode(WithoutNode(nodes, id), x) == if x == id then None else FindNode(nodes, x)
  {
    if nodes != [] {
      FindWithout(nodes[1..], id, x);
    }
  }

  lemma {:induction false} FindReplaced(nodes: seq<Node>, n: Node, x: Id)
    ensures FindNode(ReplaceOrAppend(nodes, n), x) == if x == n.id then Some(n) else FindNode(nodes, x)
  {
    if nodes != [] {
      FindReplaced(nodes[1..], n, x);
    }
  }

  lemma {:induction false} FindMerged(ids: seq<Id>, base: seq<Node>, incoming: seq<Node>, current: seq<Node>, x: Id)
    ensures FindNode(MergeNodes(ids, base, incoming, current), x) ==
            if x in ids then ThreeWay(FindNode(base, x), FindNode(incoming, x), FindNode(current, x)) else FindNode(current, x)
  {
    if ids != [] {
      var init, id := ids[..|ids| - 1], ids[|ids| - 1];
      FindMerged(init, base, incoming, current, x);
      assert x in ids <==> x in init || x == id;
      var done := MergeNodes(init, base, incoming, current);
      FindWithout(done, id, x);
      if FindNode(incoming, id).Some? {
        FindReplaced(done, FindNode(incoming, id).value, x);
      }
    }
  }

  ghost predicate IsThreeWay(base: Graph, incoming: Graph, current: Graph, m: Graph) {
    && m.id == current.id
    && m.name == ThreeWay(base.name, incoming.name, current.name)
    && m.schema == ThreeWay(base.schema, incoming.schema, current.schema)
    && m.edges == ThreeWay(base.edges, incoming.edges, current.edges)
    && forall id :: FindNode(m.nodes, id)
         == ThreeWay(FindNode(base.nodes, id), FindNode(incoming.nodes, id), FindNode(current.nodes, id))
  }

  /** Whatever the other side changed is in the result as the other side left it. */
  ghost predicate KeepsRemote(base: Graph, current: Graph, m: Graph) {
    && (current.name != base.name ==> m.name == current.name)
    && (current.schema != base.schema ==> m.schema == current.schema)
    && (current.edges != base.edges ==> m.edges == current.edges)
    && forall id :: FindNode(current.nodes, id) != FindNode(base.nodes, id) ==> FindNode(m.nodes, id) == FindNode(current.nodes, id)
  }

  lemma CandidatesCover(base: Graph, incoming: Graph, id: Id)
    requires FindNode(base.nodes, id) != FindNode(incoming.nodes, id)
    ensures id in CandidateIds(base, incoming)
  {
    assert exists n :: n in base.nodes + incoming.nodes && n.id == id by {
      if FindNode(base.nodes, id).Some? {
        assert FindNode(base.nodes, id).value in base.nodes + incoming.nodes;
      } else {
        assert FindNode(incoming.nodes, id).value in base.nodes + incoming.nodes;
      }
    }
    assert id in NodeIds(base.nodes + incoming.nodes);
  }

  lemma NoNodeConflict(base: Graph, incoming: Graph, current: Graph, id: Id)
    requires !Conflicting(base, incoming, current)
    ensures !NodeConflict(base, incoming, current, id)
  {
    if FindNode(base.nodes, id) != FindNode(incoming.nodes, id) {
      CandidatesCover(base, incoming, id);
    }
  }

  lemma MergeIsThreeWay(base: Graph, incoming: Graph, current: Graph)
    requires Merge(base, incoming, current).Success?
    ensures IsThreeWay(base, incoming, current, Merge(base, incoming, current).value)
    ensures KeepsRemote(base, current, Merge(base, incoming, current).value)
  {
    var m := Merge(base, incoming, current).value;
    forall id
      ensures FindNode(m.nodes, id) == ThreeWay(FindNode(base.nodes, id), FindNode(incoming.nodes, id), FindNode(current.nodes, id))
      ensures FindNode(current.nodes, id) != FindNode(base.nodes, id) ==> FindNode(m.nodes, id) == FindNode(current.nodes, id)
    {
      FindMerged(CandidateIds(base, incoming), base.nodes, incoming.nodes, current.nodes, id);
      NoNodeConflict(base, incoming, current, id);
      if FindNode(base.nodes, id) != FindNode(incoming.nodes, id) {
        CandidatesCover(base, incoming, id);
      }
    }
  }

  /* ---------- graphs up to node order ---------- */

  ghost predicate Agree(g: Graph, h: Graph) {
    && g.id == h.id && g.name == h.name && g.schema == h.schema && g.edges == h.edges
    && forall id :: FindNode(g.nodes, id) == FindNode(h.nodes, id)
  }

  lemma {:induction false} UniqueMember(nodes: seq<Node>, n: Node)
    requires UniqueIds(nodes)
    ensures n in nodes <==> FindNode(nodes, n.id) == Some(n)
    ensures multiset(nodes)[n] <= 1
  {
    if nodes != [] {
      assert nodes == [nodes[0]] + nodes[1..];
      assert UniqueIds(nodes[1..]);
      UniqueMember(nodes[1..], n);
      if n == nodes[0] {
        forall m | m in nodes[1..] ensures m.id != n.id {
          var i :| 0 <= i < |nodes[1..]| && nodes[1..][i] == m;
          assert nodes[0].id != nodes[i + 1].id;
        }
      }
    }
  }

  /** For graphs with unique ids, agreement is equality up to a permutation of the nodes. */
  lemma AgreeIsPermutation(g: Graph, h: Graph)
    requires UniqueIds(g.nodes) && UniqueIds(h.nodes) && Agree(g, h)
    ensures multiset(g.nodes) == multiset(h.nodes)
  {
    forall n ensures multiset(g.nodes)[n] == multiset(h.nodes)[n] {
      UniqueMember(g.nodes, n);
      UniqueMember(h.nodes, n);
    }
  }

  lemma MergeOfUnchanged(base: Graph, current: Graph)
    requires base.id == current.id
    ensures Merge(base, base, current) == Success(current)
  {
    UntouchedNodes(CandidateIds(base, base), base.nodes, current.nodes);
  }

  lemma {:induction false} UntouchedNodes(ids: seq<Id>, base: seq<Node>, current: seq<Node>)
    ensures MergeNodes(ids, base, base, current) == current
  {
    if ids != [] {
      UntouchedNodes(ids[..|ids| - 1], base, current);
    }
  }

  /** Against an unchanged remote the merge always succeeds and is the incoming graph. */
  lemma MergeOntoBase(base: Graph, incoming: Graph, current: Graph)
    requires Agree(base, current) && incoming.id == base.id
    ensures Merge(base, incoming, current).Success?
    ensures Agree(Merge(base, incoming, current).value, incoming)
  {
    assert !Conflicting(base, incoming, current);
    MergeIsThreeWay(base, incoming, current);
  }

  /** Both argument orders give the same graph whenever both succeed. */
  lemma MergeCommutes(base: Graph, a: Graph, b: Graph)
    requires Merge(base, a, b).Success? && Merge(base, b, a).Success?
    ensures Agree(Merge(base, a, b).value, Merge(base, b, a).value)
  {
    MergeIsThreeWay(base, a, b);
    MergeIsThreeWay(base, b, a);
  }
}
