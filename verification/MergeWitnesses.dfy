/** Acceptable documents whose merge is not: the two conditions of `MergeFits` are needed
    (packages/pipeline-control/service.ts, packages/pipeline-model/index.ts). */
module MergeWitnesses {
  import opened Wrappers
  import opened PipelineModel
  import opened Inspection
  import opened Collaboration
  import opened MergeValidity
  import opened Documents
  import opened PipelineStore

  /** A draft without edges, all nodes at one place. */
  function Draft(schema: Schema, nodes: seq<Node>): Document {
    Document(Graph(Id("p"), schema, "draft", nodes, []), map id | id in NodeIds(nodes) :: Position(0.0, 0.0, None))
  }

  lemma DraftIsAcceptable(catalog: Catalog, schema: Schema, nodes: seq<Node>)
    requires UniqueIds(nodes) && |nodes| <= MAX_NODES
    ensures Acceptable(catalog, Draft(schema, nodes)) <==> forall n :: n in nodes ==> NodeTolerable(schema, catalog, n)
  {
    assert !Blank("draft") by {
      assert "draft"[0] == 'd' && "draft"[0] in "draft";
    }
  }

  /* ---------- the schema version ---------- */

  /** A node whose type is unavailable but whose ports are pinned. */
  function Placeholder(kind: TypeKey): Node {
    Node(Id("n"), kind, "node", map[], None, Some(Ports([], [])), None)
  }

  lemma PlaceholderTolerance(catalog: Catalog, missing: TypeKey, schema: Schema)
    requires Lookup(catalog, missing).None?
    ensures NodeTolerable(schema, catalog, Placeholder(missing)) <==> schema.PipelineV2?
  {
    var issue := Issue(UnknownType, Some(Id("n")));
    assert NodeChecks(catalog, Placeholder(missing)) == [issue];
    assert issue in NodeChecks(catalog, Placeholder(missing));
  }

  /** One side downgrades an empty draft while the other adds a node whose type is unavailable. */
  lemma DowngradeCanBreakAMerge(catalog: Catalog, missing: TypeKey)
    requires Lookup(catalog, missing).None?
    ensures var base, incoming, current := Draft(PipelineV2, []), Draft(PrototypeV1, []), Draft(PipelineV2, [Placeholder(missing)]);
            && Acceptable(catalog, base) && Acceptable(catalog, incoming) && Acceptable(catalog, current)
            && MergeDocuments(false, base, incoming, current).Some?
            && MergeDocumentChange(catalog, base, incoming, current) == Failure(InvalidPipeline)
  {
    DraftIsAcceptable(catalog, PipelineV2, []);
    DraftIsAcceptable(catalog, PrototypeV1, []);
    DraftIsAcceptable(catalog, PipelineV2, [Placeholder(missing)]);
    PlaceholderTolerance(catalog, missing, PipelineV2);
    DowngradeMerges(Placeholder(missing));
    DowngradeIsUnsuited(catalog, missing);
    MergedDocumentIsAcceptable(catalog, Draft(PipelineV2, []), Draft(PrototypeV1, []), Draft(PipelineV2, [Placeholder(missing)]));
  }

  lemma DowngradeMerges(added: Node)
    ensures MergeDocuments(false, Draft(PipelineV2, []), Draft(PrototypeV1, []), Draft(PipelineV2, [added])).Some?
  {
    assert CandidateIds(Draft(PipelineV2, []).graph, Draft(PrototypeV1, []).graph) == [];
  }

  lemma DowngradeIsUnsuited(catalog: Catalog, missing: TypeKey)
    requires Lookup(catalog, missing).None?
    ensures !SchemaSuits(catalog, Draft(PipelineV2, []).graph, Draft(PrototypeV1, []).graph, Draft(PipelineV2, [Placeholder(missing)]).graph)
  {
    assert NodeChecks(catalog, Placeholder(missing)) != [];
    assert Placeholder(missing) in Draft(PrototypeV1, []).graph.nodes + Draft(PipelineV2, [Placeholder(missing)]).graph.nodes;
  }

  /* ---------- the node limit ---------- */

  function Letter(k: nat): char
    requires k < 20
  {
    'a' + k as char
  }

  function Numbered(k: nat): Id
    requires k < 400
  {
    Id([Letter(k / 20), Letter(k % 20)])
  }

  lemma NumberedApart(j: nat, k: nat)
    requires j < k < 400
    ensures Numbered(j) != Numbered(k)
  {
    if j / 20 != k / 20 {
      assert Numbered(j).text[0] != Numbered(k).text[0];
    } else {
      assert Numbered(j).text[1] != Numbered(k).text[1];
    }
  }

  /** Copies of the sample with the ids from `lo` up to `hi`. */
  function Copies(sample: Node, lo: nat, hi: nat): seq<Node>
    requires lo <= hi <= 400
  {
    seq(hi - lo, i requires 0 <= i < hi - lo => sample.(id := Numbered(lo + i)))
  }

  lemma CopiesAreUnique(sample: Node, lo: nat, hi: nat)
    requires lo <= hi <= 400
    ensures UniqueIds(Copies(sample, lo, hi))
  {
    var nodes := Copies(sample, lo, hi);
    forall i, j | 0 <= i < j < |nodes| ensures nodes[i].id != nodes[j].id {
      NumberedApart(lo + i, lo + j);
    }
  }

  ghost predicate AllCopies(sample: Node, nodes: seq<Node>) {
    forall n :: n in nodes ==> n == sample.(id := n.id)
  }

  lemma FindCopy(sample: Node, nodes: seq<Node>, id: Id)
    requires AllCopies(sample, nodes)
    ensures FindNode(nodes, id) == if id in NodeIds(nodes) then Some(sample.(id := id)) else None
  {
  }

  lemma CopiesAreAcceptable(catalog: Catalog, sample: Node, nodes: seq<Node>)
    requires NodeChecks(catalog, sample) == [] && AllCopies(sample, nodes) && UniqueIds(nodes) && |nodes| <= MAX_NODES
    ensures Acceptable(catalog, Draft(PipelineV2, nodes))
  {
    DraftIsAcceptable(catalog, PipelineV2, nodes);
    forall n | n in nodes ensures NodeTolerable(PipelineV2, catalog, n) {
      assert NodeChecks(catalog, n) == [] by {
        assert n == sample.(id := n.id);
      }
    }
  }

  /** Different additions to a draft of copies never conflict. */
  lemma AdditionsMerge(sample: Node, base: seq<Node>, incoming: seq<Node>, current: seq<Node>)
    requires AllCopies(sample, base) && AllCopies(sample, incoming) && AllCopies(sample, current)
    requires NodeIds(base) <= NodeIds(incoming) && NodeIds(incoming) * NodeIds(current) == NodeIds(base)
    ensures MergeDocuments(false, Draft(PipelineV2, base), Draft(PipelineV2, incoming), Draft(PipelineV2, current)).Some?
  {
    var b, i, c := Draft(PipelineV2, base), Draft(PipelineV2, incoming), Draft(PipelineV2, current);
    forall id ensures !NodeConflict(b.graph, i.graph, c.graph, id) && !PositionConflict(false, b.layout, i.layout, c.layout, id) {
      FindCopy(sample, base, id);
      FindCopy(sample, incoming, id);
      FindCopy(sample, current, id);
      assert id in NodeIds(base) <==> id in NodeIds(incoming) && id in NodeIds(current);
    }
    assert !Conflicting(b.graph, i.graph, c.graph);
  }

  /** The ids of the three drafts of the witness. */
  lemma WitnessIds(sample: Node)
    ensures var base, incoming := Copies(sample, 0, 150), Copies(sample, 0, 200);
            var current := Copies(sample, 0, 150) + Copies(sample, 200, 250);
            && NodeIds(base) <= NodeIds(incoming) && NodeIds(incoming) * NodeIds(current) == NodeIds(base)
            && UniqueIds(current)
            && NodeIds(Copies(sample, 0, 250)) == (NodeIds(current) - (NodeIds(base) - NodeIds(incoming))) + (NodeIds(incoming) - NodeIds(base))
  {
    var base, incoming, added := Copies(sample, 0, 150), Copies(sample, 0, 200), Copies(sample, 200, 250);
    var all := Copies(sample, 0, 250);
    SplitCopies(sample, 0, 150, 200);
    SplitCopies(sample, 0, 200, 250);
    UnionIds(base, Copies(sample, 150, 200));
    UnionIds(incoming, added);
    UnionIds(base, added);
    CopiesAreUnique(sample, 0, 250);
    UniqueParts(incoming, added);
    UniqueParts(base, Copies(sample, 150, 200));
    CopiesAreUnique(sample, 200, 250);
    JoinUnique(base, added);
  }

  lemma SplitCopies(sample: Node, lo: nat, mid: nat, hi: nat)
    requires lo <= mid <= hi <= 400
    ensures Copies(sample, lo, hi) == Copies(sample, lo, mid) + Copies(sample, mid, hi)
  {
  }

  lemma UnionIds(a: seq<Node>, b: seq<Node>)
    ensures NodeIds(a + b) == NodeIds(a) + NodeIds(b)
  {
  }

  lemma UniqueParts(a: seq<Node>, b: seq<Node>)
    requires UniqueIds(a + b)
    ensures UniqueIds(a) && NodeIds(a) !! NodeIds(b)
  {
    var all := a + b;
    forall i, j | 0 <= i < j < |a| ensures a[i].id != a[j].id {
      assert all[i].id != all[j].id;
    }
    forall m, n | m in a && n in b ensures m.id != n.id {
      var i :| 0 <= i < |a| && a[i] == m;
      var j :| 0 <= j < |b| && b[j] == n;
      assert all[i].id != all[|a| + j].id;
    }
  }

  lemma JoinUnique(a: seq<Node>, b: seq<Node>)
    requires UniqueIds(a) && UniqueIds(b) && NodeIds(a) !! NodeIds(b)
    ensures UniqueIds(a + b)
  {
    var all := a + b;
    forall i, j | 0 <= i < j < |all| ensures all[i].id != all[j].id {
      if i < |a| <= j {
        assert a[i].id in NodeIds(a) && b[j - |a|].id in NodeIds(b);
      }
    }
  }

  /** Of a draft with 150 nodes both sides add 50 others: so it is when one author's removal of 50 nodes is undone
      after another author has added 50. */
  lemma NodeLimitCanBreakAMerge(catalog: Catalog, sample: Node)
    requires NodeChecks(catalog, sample) == []
    ensures var base, incoming := Draft(PipelineV2, Copies(sample, 0, 150)), Draft(PipelineV2, Copies(sample, 0, 200));
            var current := Draft(PipelineV2, Copies(sample, 0, 150) + Copies(sample, 200, 250));
            && Acceptable(catalog, base) && Acceptable(catalog, incoming) && Acceptable(catalog, current)
            && MergeDocuments(false, base, incoming, current).Some?
            && MergeDocumentChange(catalog, base, incoming, current) == Failure(InvalidPipeline)
  {
    var base, incoming := Draft(PipelineV2, Copies(sample, 0, 150)), Draft(PipelineV2, Copies(sample, 0, 200));
    var current := Draft(PipelineV2, Copies(sample, 0, 150) + Copies(sample, 200, 250));
    WitnessIds(sample);
    CopiesAreUnique(sample, 0, 150);
    CopiesAreUnique(sample, 0, 200);
    CopiesAreAcceptable(catalog, sample, base.graph.nodes);
    CopiesAreAcceptable(catalog, sample, incoming.graph.nodes);
    CopiesAreAcceptable(catalog, sample, current.graph.nodes);
    AdditionsMerge(sample, base.graph.nodes, incoming.graph.nodes, current.graph.nodes);
    CopiesAreUnique(sample, 0, 250);
    UniqueSize(Copies(sample, 0, 250));
    assert |MergedIds(base.graph, incoming.graph, current.graph)| == 250;
    MergedDocumentIsAcceptable(catalog, base, incoming, current);
  }
}
