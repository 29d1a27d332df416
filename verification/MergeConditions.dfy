/** Exactly when independent edits merge (packages/pipeline-control/collaboration.ts, packages/pipeline-control/service.ts). */
module MergeConditions {
  import opened PipelineModel
  import opened Collaboration
  import opened Documents

  /** Only one side changed it, or both changed it alike. */
  predicate Compatible<T(==)>(base: T, incoming: T, current: T) {
    incoming == base || current == base || incoming == current
  }

  predicate HasEnd(e: Edge, id: Id) {
    e.from.node == id || e.to.node == id
  }

  /** A node that incoming changed has the same edges in current as in base. */
  ghost predicate NodesIndependent(base: Graph, incoming: Graph, current: Graph) {
    forall id ::
      && Compatible(FindNode(base.nodes, id), FindNode(incoming.nodes, id), FindNode(current.nodes, id))
      && (FindNode(incoming.nodes, id) != FindNode(base.nodes, id) ==> Incident(current.edges, id) == Incident(base.edges, id))
  }

  /** No edge that incoming added or removed ends at a node that current changed. */
  ghost predicate EdgesIndependent(base: Graph, incoming: Graph, current: Graph) {
    && Compatible(base.edges, incoming.edges, current.edges)
    && forall e, id :: (e in base.edges <==> e !in incoming.edges) && HasEnd(e, id) ==> FindNode(current.nodes, id) == FindNode(base.nodes, id)
  }

  ghost predicate Independent(base: Graph, incoming: Graph, current: Graph) {
    && base.id == incoming.id == current.id
    && Compatible(base.name, incoming.name, current.name)
    && Compatible(base.schema, incoming.schema, current.schema)
    && NodesIndependent(base, incoming, current)
    && EdgesIndependent(base, incoming, current)
  }

  /** What a node's wiring is: its edges, in the order of the list. */
  lemma {:induction false} IncidentIsFilter(a: seq<Edge>, b: seq<Edge>, e: Edge, id: Id)
    ensures Incident([e], id) == if HasEnd(e, id) then [e] else []
    ensures Incident(a + b, id) == Incident(a, id) + Incident(b, id)
  {
    assert [e][..0] == [];
    if b != [] {
      IncidentIsFilter(a, b[..|b| - 1], e, id);
      assert (a + b)[..|a + b| - 1] == a + b[..|b| - 1];
    } else {
      assert a + b == a;
    }
  }

  /* ---------- the condition is exact ---------- */

  lemma NodesIndependentMeans(base: Graph, incoming: Graph, current: Graph)
    ensures NodesIndependent(base, incoming, current)
            <==> forall id :: id in CandidateIds(base, incoming) ==> !NodeConflict(base, incoming, current, id)
  {
    forall id
      ensures FindNode(base.nodes, id) != FindNode(incoming.nodes, id) ==> id in CandidateIds(base, incoming)
    {
      if FindNode(base.nodes, id) != FindNode(incoming.nodes, id) {
        CandidatesCover(base, incoming, id);
      }
    }
  }

  lemma AffectedMeans(base: seq<Edge>, incoming: seq<Edge>, id: Id)
    ensures id in AffectedIds(base, incoming) <==> exists e :: (e in base <==> e !in incoming) && HasEnd(e, id)
  {
    if id in AffectedIds(base, incoming) {
      var e :| e in base + incoming && OnOneSideOnly(base, incoming, e) && HasEnd(e, id);
    }
    if e :| (e in base <==> e !in incoming) && HasEnd(e, id) {
      assert e in base + incoming && OnOneSideOnly(base, incoming, e);
    }
  }

  lemma EdgesIndependentMeans(base: Graph, incoming: Graph, current: Graph)
    ensures EdgesIndependent(base, incoming, current) <==> !EdgeConflict(base, incoming, current)
  {
    forall id ensures id in AffectedIds(base.edges, incoming.edges)
                      <==> exists e :: (e in base.edges <==> e !in incoming.edges) && HasEnd(e, id)
    {
      AffectedMeans(base.edges, incoming.edges, id);
    }
  }

  /** Two sides merge exactly when their edits are independent. */
  lemma MergeSucceedsExactly(base: Graph, incoming: Graph, current: Graph)
    ensures Merge(base, incoming, current).Success? <==> Independent(base, incoming, current)
  {
    NodesIndependentMeans(base, incoming, current);
    EdgesIndependentMeans(base, incoming, current);
  }

  /** Whole documents merge exactly when moreover no position that incoming changed was changed by current;
      rebasing a client's history lets an equal change pass. */
  lemma DocumentsMergeExactly(lenient: bool, base: Document, incoming: Document, current: Document)
    ensures MergeDocuments(lenient, base, incoming, current).Some?
            <==> Independent(base.graph, incoming.graph, current.graph)
                 && forall id :: var b, i, c := At(base.layout, id), At(incoming.layout, id), At(current.layout, id);
                                 i == b || c == b || (lenient && c == i)
  {
    MergeSucceedsExactly(base.graph, incoming.graph, current.graph);
    forall id ensures id !in base.layout.Keys + incoming.layout.Keys ==> At(base.layout, id) == At(incoming.layout, id) {
    }
    PositionsMergeExactly(lenient, base.layout, incoming.layout, current.layout);
  }

  lemma PositionsMergeExactly(lenient: bool, base: Layout, incoming: Layout, current: Layout)
    ensures MergeLayout(lenient, base, incoming, current).Some?
            <==> forall id :: var b, i, c := At(base, id), At(incoming, id), At(current, id);
                              i == b || c == b || (lenient && c == i)
  {
    forall id ensures At(base, id) != At(incoming, id) ==> id in base.Keys + incoming.Keys {
    }
  }
}
