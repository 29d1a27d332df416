/** A merge of valid graphs is valid: the structural rules survive edits made on both sides
    (packages/pipeline-control/collaboration.ts against the checks of packages/pipeline-model/index.ts). */
module MergeValidity {
  import opened PipelineModel
  import opened Cycles
  import opened Inspection
  import opened Collaboration

  lemma {:induction false} InIncident(edges: seq<Edge>, id: Id, e: Edge)
    ensures e in Incident(edges, id) <==> e in edges && (e.from.node == id || e.to.node == id)
  {
    if edges != [] {
      InIncident(edges[..|edges| - 1], id, e);
      assert edges == edges[..|edges| - 1] + [edges[|edges| - 1]];
    }
  }

  lemma {:induction false} UniqueWithout(nodes: seq<Node>, id: Id)
    requires UniqueIds(nodes)
    ensures UniqueIds(WithoutNode(nodes, id))
    ensures NodeIds(WithoutNode(nodes, id)) == NodeIds(nodes) - {id}
  {
    if nodes != [] {
      assert nodes == [nodes[0]] + nodes[1..];
      UniqueCons(nodes[0], nodes[1..]);
      UniqueWithout(nodes[1..], id);
      if nodes[0].id != id {
        UniqueCons(nodes[0], WithoutNode(nodes[1..], id));
      }
    }
  }

  lemma {:induction false} UniqueReplaced(nodes: seq<Node>, n: Node)
    requires UniqueIds(nodes)
    ensures UniqueIds(ReplaceOrAppend(nodes, n))
    ensures NodeIds(ReplaceOrAppend(nodes, n)) == NodeIds(nodes) + {n.id}
  {
    if nodes != [] {
      var first, rest := nodes[0], nodes[1..];
      assert nodes == [first] + rest;
      UniqueCons(first, rest);
      if first.id == n.id {
        UniqueCons(n, rest);
      } else {
        UniqueReplaced(rest, n);
        UniqueCons(first, ReplaceOrAppend(rest, n));
      }
    } else {
      assert ReplaceOrAppend(nodes, n) == [n];
    }
  }

  lemma UniqueCons(n: Node, rest: seq<Node>)
    ensures UniqueIds([n] + rest) <==> UniqueIds(rest) && n.id !in NodeIds(rest)
    ensures NodeIds([n] + rest) == NodeIds(rest) + {n.id}
  {
    var all := [n] + rest;
    if UniqueIds(all) {
      forall i, j | 0 <= i < j < |rest| ensures rest[i].id != rest[j].id {
        assert all[i + 1].id != all[j + 1].id;
      }
      forall m | m in rest ensures m.id != n.id {
        var i :| 0 <= i < |rest| && rest[i] == m;
        assert all[0].id != all[i + 1].id;
      }
    }
    if UniqueIds(rest) && n.id !in NodeIds(rest) {
      forall i, j | 0 <= i < j < |all| ensures all[i].id != all[j].id {
        assert all[j] in rest;
      }
    }
  }

  lemma {:induction false} MergeKeepsUniqueIds(ids: seq<Id>, base: seq<Node>, incoming: seq<Node>, current: seq<Node>)
    requires UniqueIds(current)
    ensures UniqueIds(MergeNodes(ids, base, incoming, current))
  {
    if ids != [] {
      var init, id := ids[..|ids| - 1], ids[|ids| - 1];
      MergeKeepsUniqueIds(init, base, incoming, current);
      UniqueWithout(MergeNodes(init, base, incoming, current), id);
      if FindNode(incoming, id).Some? {
        UniqueReplaced(MergeNodes(init, base, incoming, current), FindNode(incoming, id).value);
      }
    }
  }

  /** An edge of all three graphs stays wired even when its two ends were changed on different sides. */
  lemma CommonEdgeStaysWired(catalog: Catalog, base: Graph, incoming: Graph, current: Graph, m: Graph, e: Edge)
    requires !Conflicting(base, incoming, current) && IsThreeWay(base, incoming, current, m)
    requires Wired(catalog, base.nodes, e) && Wired(catalog, incoming.nodes, e) && Wired(catalog, current.nodes, e)
    ensures Wired(catalog, m.nodes, e)
  {
    NoNodeConflict(base, incoming, current, e.from.node);
    NoNodeConflict(base, incoming, current, e.to.node);
  }

  lemma MergedEdgeIsWired(catalog: Catalog, base: Graph, incoming: Graph, current: Graph, m: Graph, e: Edge)
    requires !Conflicting(base, incoming, current) && IsThreeWay(base, incoming, current, m)
    requires forall d :: d in base.edges ==> Wired(catalog, base.nodes, d)
    requires forall d :: d in incoming.edges ==> Wired(catalog, incoming.nodes, d)
    requires forall d :: d in current.edges ==> Wired(catalog, current.nodes, d)
    requires e in m.edges
    ensures Wired(catalog, m.nodes, e)
  {
    NoNodeConflict(base, incoming, current, e.from.node);
    NoNodeConflict(base, incoming, current, e.to.node);
    if e in base.edges && e in incoming.edges && e in current.edges {
      CommonEdgeStaysWired(catalog, base, incoming, current, m, e);
    } else if base.edges == incoming.edges {
      InIncident(base.edges, e.from.node, e);
      InIncident(current.edges, e.from.node, e);
      InIncident(base.edges, e.to.node, e);
      InIncident(current.edges, e.to.node, e);
    } else {
      assert e in base.edges + incoming.edges && OnOneSideOnly(base.edges, incoming.edges, e);
      assert e.from.node in AffectedIds(base.edges, incoming.edges);
      assert e.to.node in AffectedIds(base.edges, incoming.edges);
    }
  }

  lemma MergedNodeComesFromASide(base: Graph, incoming: Graph, current: Graph, m: Graph, n: Node)
    requires IsThreeWay(base, incoming, current, m) && UniqueIds(m.nodes) && n in m.nodes
    ensures n in incoming.nodes || n in current.nodes
  {
    UniqueMember(m.nodes, n);
  }

  /* ---------- the schema version ---------- */

  /** The schema version the merge will have suits every node that either side added or changed since the base. */
  predicate SchemaSuits(catalog: Catalog, base: Graph, incoming: Graph, current: Graph) {
    || ThreeWay(base.schema, incoming.schema, current.schema).PipelineV2?
    || forall n :: n in incoming.nodes + current.nodes && n !in base.nodes ==> NodeChecks(catalog, n) == []
  }

  /** A side that changed a node decides it. */
  lemma ChangedNodeSurvives(base: Graph, incoming: Graph, current: Graph, m: Graph, n: Node)
    requires UniqueIds(base.nodes) && UniqueIds(incoming.nodes) && UniqueIds(current.nodes) && UniqueIds(m.nodes)
    requires IsThreeWay(base, incoming, current, m) && KeepsRemote(base, current, m)
    requires (n in incoming.nodes || n in current.nodes) && n !in base.nodes
    ensures n in m.nodes
  {
    UniqueMember(base.nodes, n);
    UniqueMember(incoming.nodes, n);
    UniqueMember(current.nodes, n);
    UniqueMember(m.nodes, n);
  }

  /** A node of the base that is still in the merge is still on both sides. */
  lemma OldNodeIsShared(base: Graph, incoming: Graph, current: Graph, m: Graph, n: Node)
    requires UniqueIds(base.nodes) && UniqueIds(incoming.nodes) && UniqueIds(current.nodes) && UniqueIds(m.nodes)
    requires IsThreeWay(base, incoming, current, m) && KeepsRemote(base, current, m)
    requires n in base.nodes && n in m.nodes
    ensures n in incoming.nodes && n in current.nodes
  {
    UniqueMember(base.nodes, n);
    UniqueMember(incoming.nodes, n);
    UniqueMember(current.nodes, n);
    UniqueMember(m.nodes, n);
  }

  lemma SideIsClean(catalog: Catalog, g: Graph, n: Node)
    requires WellFormed(catalog, g) && g.schema.PrototypeV1? && n in g.nodes
    ensures NodeChecks(catalog, n) == []
  {
    TolerableMeans(PrototypeV1, catalog, n);
  }

  lemma DowngradedMergeIsClean(catalog: Catalog, base: Graph, incoming: Graph, current: Graph, m: Graph)
    requires WellFormed(catalog, base) && WellFormed(catalog, incoming) && WellFormed(catalog, current) && UniqueIds(m.nodes)
    requires IsThreeWay(base, incoming, current, m) && KeepsRemote(base, current, m) && m.schema.PrototypeV1?
    ensures (forall n :: n in m.nodes ==> NodeChecks(catalog, n) == []) <==> SchemaSuits(catalog, base, incoming, current)
  {
    if SchemaSuits(catalog, base, incoming, current) {
      forall n | n in m.nodes ensures NodeChecks(catalog, n) == [] {
        MergedNodeComesFromASide(base, incoming, current, m, n);
        if n in base.nodes {
          OldNodeIsShared(base, incoming, current, m, n);
          SideIsClean(catalog, if incoming.schema.PrototypeV1? then incoming else current, n);
        }
      }
    } else {
      var n :| (n in incoming.nodes || n in current.nodes) && n !in base.nodes && NodeChecks(catalog, n) != [];
      ChangedNodeSurvives(base, incoming, current, m, n);
    }
  }

  /** A successful merge of well-formed graphs has unique nodes, no dangling, mistyped or doubled connection,
      and no cycle the two sides did not have; it is well formed exactly when the schema version it will have suits
      what the sides added or changed. */
  lemma MergeKeepsWellFormed(catalog: Catalog, base: Graph, incoming: Graph, current: Graph)
    requires WellFormed(catalog, base) && WellFormed(catalog, incoming) && WellFormed(catalog, current)
    requires Merge(base, incoming, current).Success?
    ensures var m := Merge(base, incoming, current).value;
            && UniqueIds(m.nodes)
            && (forall e :: e in m.edges ==> Wired(catalog, m.nodes, e))
            && UniqueEdgeIds(m.edges)
            && OneSourcePerInput(m.edges)
            && (!HasCycle(incoming.edges) && !HasCycle(current.edges) ==> !HasCycle(m.edges))
            && (WellFormed(catalog, m) <==> SchemaSuits(catalog, base, incoming, current))
  {
    var m := Merge(base, incoming, current).value;
    MergeIsThreeWay(base, incoming, current);
    MergeKeepsUniqueIds(CandidateIds(base, incoming), base.nodes, incoming.nodes, current.nodes);
    forall e | e in m.edges ensures Wired(catalog, m.nodes, e) {
      MergedEdgeIsWired(catalog, base, incoming, current, m, e);
    }
    forall n | n in m.nodes
      ensures NodeTolerable(m.schema, catalog, n) <==> m.schema.PipelineV2? || NodeChecks(catalog, n) == []
    {
      MergedNodeComesFromASide(base, incoming, current, m, n);
      TolerableMeans(m.schema, catalog, n);
      assert NodeTolerable(PipelineV2, catalog, n) by {
        TolerableMeans(PipelineV2, catalog, n);
      }
    }
    if m.schema.PrototypeV1? {
      DowngradedMergeIsClean(catalog, base, incoming, current, m);
    }
  }

  /* ---------- the size limits ---------- */

  /** The ids the merge will have: what current has and incoming did not remove, and what incoming added. */
  function MergedIds(base: Graph, incoming: Graph, current: Graph): set<Id> {
    (NodeIds(current.nodes) - (NodeIds(base.nodes) - NodeIds(incoming.nodes))) + (NodeIds(incoming.nodes) - NodeIds(base.nodes))
  }

  lemma {:induction false} UniqueSize(nodes: seq<Node>)
    requires UniqueIds(nodes)
    ensures |NodeIds(nodes)| == |nodes|
  {
    if nodes != [] {
      assert nodes == [nodes[0]] + nodes[1..];
      UniqueCons(nodes[0], nodes[1..]);
      UniqueSize(nodes[1..]);
    }
  }

  lemma MergedIdsAre(base: Graph, incoming: Graph, current: Graph)
    requires Merge(base, incoming, current).Success?
    ensures NodeIds(Merge(base, incoming, current).value.nodes) == MergedIds(base, incoming, current)
  {
    var m := Merge(base, incoming, current).value;
    MergeIsThreeWay(base, incoming, current);
    forall id ensures id in NodeIds(m.nodes) <==> id in MergedIds(base, incoming, current) {
      NoNodeConflict(base, incoming, current, id);
      FoundIds(base.nodes, id);
      FoundIds(incoming.nodes, id);
      FoundIds(current.nodes, id);
      FoundIds(m.nodes, id);
    }
  }

  lemma FoundIds(nodes: seq<Node>, id: Id)
    ensures id in NodeIds(nodes) <==> FindNode(nodes, id).Some?
  {
  }

  /** What a caller can check beforehand: the schema version suits the edits, and the merge stays within the limit. */
  predicate MergeFits(catalog: Catalog, base: Graph, incoming: Graph, current: Graph) {
    SchemaSuits(catalog, base, incoming, current) && |MergedIds(base, incoming, current)| <= MAX_NODES
  }

  /** A successful merge of readable graphs is readable exactly when it fits; its edges always do, being one side's list. */
  lemma MergeIsReadable(catalog: Catalog, base: Graph, incoming: Graph, current: Graph)
    requires Readable(catalog, base) && Readable(catalog, incoming) && Readable(catalog, current)
    requires Merge(base, incoming, current).Success?
    ensures |Merge(base, incoming, current).value.edges| <= MAX_EDGES
    ensures Readable(catalog, Merge(base, incoming, current).value) <==> MergeFits(catalog, base, incoming, current)
  {
    MergeKeepsWellFormed(catalog, base, incoming, current);
    MergedIdsAre(base, incoming, current);
    UniqueSize(Merge(base, incoming, current).value.nodes);
  }

  lemma TolerableMeans(schema: Schema, catalog: Catalog, n: Node)
    ensures NodeTolerable(PrototypeV1, catalog, n) <==> NodeChecks(catalog, n) == []
    ensures NodeTolerable(PrototypeV1, catalog, n) ==> NodeTolerable(PipelineV2, catalog, n)
  {
    if NodeChecks(catalog, n) != [] {
      assert NodeChecks(catalog, n)[0] in NodeChecks(catalog, n);
    }
  }
}
