/** Merging whole documents: the graph merge together with one position per node
    (packages/pipeline-control/service.ts, apps/web/src/pipelines/history.ts). */
module Documents {
  import opened Wrappers
  import opened PipelineModel
  import opened Inspection
  import opened Collaboration
  import opened MergeValidity

  function At(layout: Layout, id: Id): Option<Position> {
    if id in layout then Some(layout[id]) else None
  }

  /** A moved node conflicts when its position was changed remotely;
      the lenient form lets an identical remote change pass. */
  predicate PositionConflict(lenient: bool, base: Layout, incoming: Layout, current: Layout, id: Id) {
    && At(base, id) != At(incoming, id)
    && At(current, id) != At(base, id)
    && !(lenient && At(current, id) == At(incoming, id))
  }

  function MergeLayout(lenient: bool, base: Layout, incoming: Layout, current: Layout): Option<Layout> {
    if exists id :: id in base.Keys + incoming.Keys && PositionConflict(lenient, base, incoming, current, id) then None
    else Some(map id | id in current.Keys + incoming.Keys && ThreeWay(At(base, id), At(incoming, id), At(current, id)).Some?
                :: ThreeWay(At(base, id), At(incoming, id), At(current, id)).value)
  }

  /** The loop has dealt with every id outside `left`. */
  ghost predicate PositionsMerged(lenient: bool, base: Layout, incoming: Layout, current: Layout, left: set<Id>, result: Layout) {
    && (forall id :: id in base.Keys + incoming.Keys && id !in left ==> !PositionConflict(lenient, base, incoming, current, id))
    && (forall id :: At(result, id) ==
          if id in left then At(current, id) else ThreeWay(At(base, id), At(incoming, id), At(current, id)))
  }

  method PlaceNode(layout: Layout, id: Id, wanted: Option<Position>) returns (r: Layout)
    ensures forall x :: At(r, x) == if x == id then wanted else At(layout, x)
  {
    r := if wanted.Some? then layout[id := wanted.value] else layout - {id};
  }

  lemma PositionPlaced(lenient: bool, base: Layout, incoming: Layout, current: Layout, left: set<Id>, before: Layout, id: Id, after: Layout)
    requires PositionsMerged(lenient, base, incoming, current, left, before) && id in left
    requires At(base, id) != At(incoming, id) && !PositionConflict(lenient, base, incoming, current, id)
    requires forall x :: At(after, x) == if x == id then At(incoming, id) else At(before, x)
    ensures PositionsMerged(lenient, base, incoming, current, left - {id}, after)
  {
  }

  method MergePresentation(lenient: bool, base: Layout, incoming: Layout, current: Layout) returns (r: Option<Layout>)
    ensures r == MergeLayout(lenient, base, incoming, current)
  {
    var presentation := current;
    var left := base.Keys + incoming.Keys;
    forall id | id !in left ensures At(current, id) == ThreeWay(At(base, id), At(incoming, id), At(current, id)) {
    }
    while left != {}
      invariant left <= base.Keys + incoming.Keys
      invariant PositionsMerged(lenient, base, incoming, current, left, presentation)
      decreases |left|
    {
      var id :| id in left;
      var was, wanted, actual := At(base, id), At(incoming, id), At(presentation, id);
      if was != wanted {
        if actual != was && !(lenient && actual == wanted) {
          assert PositionConflict(lenient, base, incoming, current, id);
          return None;
        }
        ghost var before := presentation;
        presentation := PlaceNode(presentation, id, wanted);
        PositionPlaced(lenient, base, incoming, current, left, before, id, presentation);
      }
      left := left - {id};
    }
    AllPositionsMerged(lenient, base, incoming, current, presentation);
    r := Some(presentation);
  }

  lemma AllPositionsMerged(lenient: bool, base: Layout, incoming: Layout, current: Layout, result: Layout)
    requires PositionsMerged(lenient, base, incoming, current, {}, result)
    ensures MergeLayout(lenient, base, incoming, current) == Some(result)
  {
    SameLayout(result, MergeLayout(lenient, base, incoming, current).value);
  }

  lemma SameLayout(a: Layout, b: Layout)
    requires forall id :: At(a, id) == At(b, id)
    ensures a == b
  {
    forall id ensures id in a <==> id in b {
      assert At(a, id) == At(b, id);
    }
    forall id | id in a ensures a[id] == b[id] {
      assert At(a, id) == At(b, id);
    }
  }

  /* ---------- a document as a table of independent slots ---------- */

  datatype Slot = NameSlot | SchemaSlot | EdgesSlot | NodeSlot(id: Id) | PositionSlot(id: Id)

  datatype Content =
    | NameIs(name: string)
    | SchemaIs(schema: Schema)
    | EdgesAre(edges: seq<Edge>)
    | NodeIs(node: Option<Node>)
    | PositionIs(position: Option<Position>)

  function Get(d: Document, slot: Slot): Content {
    match slot
    case NameSlot => NameIs(d.graph.name)
    case SchemaSlot => SchemaIs(d.graph.schema)
    case EdgesSlot => EdgesAre(d.graph.edges)
    case NodeSlot(id) => NodeIs(FindNode(d.graph.nodes, id))
    case PositionSlot(id) => PositionIs(At(d.layout, id))
  }

  /** Equal up to the order of the nodes. */
  ghost predicate Same(d: Document, e: Document) {
    d.graph.id == e.graph.id && forall slot :: Get(d, slot) == Get(e, slot)
  }

  lemma SameMeans(d: Document, e: Document)
    ensures Same(d, e) <==> Agree(d.graph, e.graph) && d.layout == e.layout
  {
    if Same(d, e) {
      assert Get(d, NameSlot) == Get(e, NameSlot) && Get(d, SchemaSlot) == Get(e, SchemaSlot) && Get(d, EdgesSlot) == Get(e, EdgesSlot);
      forall id ensures FindNode(d.graph.nodes, id) == FindNode(e.graph.nodes, id) && At(d.layout, id) == At(e.layout, id) {
        assert Get(d, NodeSlot(id)) == Get(e, NodeSlot(id)) && Get(d, PositionSlot(id)) == Get(e, PositionSlot(id));
      }
      SameLayout(d.layout, e.layout);
    }
  }

  /** A document without the order of its nodes. */
  datatype Essence = Essence(id: Id, schema: Schema, name: string, nodes: map<Id, Node>, edges: seq<Edge>, layout: Layout)

  function NodeMap(nodes: seq<Node>): map<Id, Node> {
    map id | id in NodeIds(nodes) :: FindNode(nodes, id).value
  }

  function EssenceOf(d: Document): Essence {
    Essence(d.graph.id, d.graph.schema, d.graph.name, NodeMap(d.graph.nodes), d.graph.edges, d.layout)
  }

  ghost predicate SameNodes(a: seq<Node>, b: seq<Node>) {
    forall id :: FindNode(a, id) == FindNode(b, id)
  }

  lemma NodeMapDecides(a: seq<Node>, b: seq<Node>)
    requires NodeMap(a) == NodeMap(b)
    ensures SameNodes(a, b)
  {
    forall id ensures FindNode(a, id) == FindNode(b, id) {
      assert id in NodeMap(a) <==> id in NodeIds(a);
      assert id in NodeMap(b) <==> id in NodeIds(b);
    }
  }

  lemma SameNodesSameMap(a: seq<Node>, b: seq<Node>)
    requires SameNodes(a, b)
    ensures NodeMap(a) == NodeMap(b)
  {
    forall id ensures id in NodeIds(a) <==> id in NodeIds(b) {
      assert FindNode(a, id) == FindNode(b, id);
    }
    assert NodeMap(a).Keys == NodeMap(b).Keys;
  }

  lemma SameEssence(d: Document, e: Document)
    ensures Same(d, e) <==> EssenceOf(d) == EssenceOf(e)
  {
    SameMeans(d, e);
    if EssenceOf(d) == EssenceOf(e) {
      assert EssenceOf(d).nodes == EssenceOf(e).nodes;
      NodeMapDecides(d.graph.nodes, e.graph.nodes);
    }
    if Same(d, e) {
      SameNodesSameMap(d.graph.nodes, e.graph.nodes);
    }
  }

  ghost function MergeDocuments(lenient: bool, base: Document, incoming: Document, current: Document): Option<Document> {
    var graph := Merge(base.graph, incoming.graph, current.graph);
    var layout := MergeLayout(lenient, base.layout, incoming.layout, current.layout);
    if graph.Failure? || layout.None? then None else Some(Document(graph.value, layout.value))
  }

  /** The three-way choice; a slot changed on both sides was changed alike. */
  ghost predicate SlotMerged(base: Document, incoming: Document, current: Document, m: Document, slot: Slot) {
    var b, i, c := Get(base, slot), Get(incoming, slot), Get(current, slot);
    Get(m, slot) == ThreeWay(b, i, c) && (i == b || c == b || c == i)
  }

  lemma MergedPosition(lenient: bool, base: Document, incoming: Document, current: Document, id: Id)
    requires MergeLayout(lenient, base.layout, incoming.layout, current.layout).Some?
    ensures var m := MergeLayout(lenient, base.layout, incoming.layout, current.layout).value;
            var b, i, c := At(base.layout, id), At(incoming.layout, id), At(current.layout, id);
            At(m, id) == ThreeWay(b, i, c) && (i == b || c == b || c == i)
  {
    if At(base.layout, id) != At(incoming.layout, id) {
      assert id in base.layout.Keys + incoming.layout.Keys;
      assert !PositionConflict(lenient, base.layout, incoming.layout, current.layout, id);
    }
  }

  /** A successful merge decides every slot this way. */
  lemma MergedSlot(lenient: bool, base: Document, incoming: Document, current: Document, slot: Slot)
    requires MergeDocuments(lenient, base, incoming, current).Some?
    ensures SlotMerged(base, incoming, current, MergeDocuments(lenient, base, incoming, current).value, slot)
  {
    match slot
    case PositionSlot(id) => MergedPosition(lenient, base, incoming, current, id);
    case NodeSlot(id) =>
      MergeIsThreeWay(base.graph, incoming.graph, current.graph);
      NoNodeConflict(base.graph, incoming.graph, current.graph, id);
    case _ => MergeIsThreeWay(base.graph, incoming.graph, current.graph);
  }

  /** A change replayed onto the document it was made from never conflicts and gives the changed document. */
  lemma ReplayOntoBase(lenient: bool, base: Document, incoming: Document, current: Document)
    requires Same(base, current) && incoming.graph.id == base.graph.id
    ensures MergeDocuments(lenient, base, incoming, current).Some?
    ensures Same(MergeDocuments(lenient, base, incoming, current).value, incoming)
  {
    SameMeans(base, current);
    MergeOntoBase(base.graph, incoming.graph, current.graph);
    assert MergeLayout(lenient, base.layout, incoming.layout, current.layout).Some?;
    var m := MergeDocuments(lenient, base, incoming, current).value;
    forall slot ensures Get(m, slot) == Get(incoming, slot) {
      MergedSlot(lenient, base, incoming, current, slot);
    }
  }

  /* ---------- merged documents stay acceptable ---------- */

  lemma NodeIsPlaced(catalog: Catalog, d: Document, id: Id)
    requires Acceptable(catalog, d)
    ensures Placed(d, id)
  {
    if FindNode(d.graph.nodes, id).Some? {
      assert id in NodeIds(d.graph.nodes);
    }
  }

  lemma AcceptableUpToOrder(catalog: Catalog, d: Document, e: Document)
    requires Acceptable(catalog, d) && Same(d, e) && UniqueIds(e.graph.nodes)
    ensures Acceptable(catalog, e)
  {
    SameMeans(d, e);
    forall n ensures n in d.graph.nodes <==> n in e.graph.nodes {
      UniqueMember(d.graph.nodes, n);
      UniqueMember(e.graph.nodes, n);
    }
    assert NodeIds(d.graph.nodes) == NodeIds(e.graph.nodes);
    UniqueSize(d.graph.nodes);
    UniqueSize(e.graph.nodes);
    forall edge | edge in e.graph.edges ensures Wired(catalog, e.graph.nodes, edge) {
      assert Wired(catalog, d.graph.nodes, edge);
    }
  }

  /** Strictly merged documents keep exactly one position per node, so they are acceptable exactly when the merge fits. */
  lemma MergedDocumentIsAcceptable(catalog: Catalog, base: Document, incoming: Document, current: Document)
    requires Acceptable(catalog, base) && Acceptable(catalog, incoming) && Acceptable(catalog, current)
    requires MergeDocuments(false, base, incoming, current).Some?
    ensures var m := MergeDocuments(false, base, incoming, current).value;
            && m.layout.Keys == NodeIds(m.graph.nodes)
            && UniqueIds(m.graph.nodes)
            && (Acceptable(catalog, m) <==> MergeFits(catalog, base.graph, incoming.graph, current.graph))
  {
    var m := MergeDocuments(false, base, incoming, current).value;
    MergeKeepsWellFormed(catalog, base.graph, incoming.graph, current.graph);
    MergeIsReadable(catalog, base.graph, incoming.graph, current.graph);
    MergedLayoutFits(catalog, base, incoming, current, m);
  }

  lemma MergedLayoutFits(catalog: Catalog, base: Document, incoming: Document, current: Document, m: Document)
    requires Acceptable(catalog, base) && Acceptable(catalog, incoming) && Acceptable(catalog, current)
    requires MergeDocuments(false, base, incoming, current) == Some(m)
    ensures m.layout.Keys == NodeIds(m.graph.nodes)
    ensures forall id :: id in m.layout ==> InRange(m.layout[id])
  {
    forall id ensures Placed(m, id) {
      NodeIsPlaced(catalog, base, id);
      NodeIsPlaced(catalog, incoming, id);
      NodeIsPlaced(catalog, current, id);
      MergedPlacement(base, incoming, current, m, id);
    }
    AllPlaced(m);
  }

  lemma AllPlaced(m: Document)
    requires forall id :: Placed(m, id)
    ensures m.layout.Keys == NodeIds(m.graph.nodes)
    ensures forall id :: id in m.layout ==> InRange(m.layout[id])
  {
    forall id
      ensures id in m.layout <==> id in NodeIds(m.graph.nodes)
      ensures id in m.layout ==> InRange(m.layout[id])
    {
      assert Placed(m, id);
    }
  }

  lemma MergedPlacement(base: Document, incoming: Document, current: Document, m: Document, id: Id)
    requires Placed(base, id) && Placed(incoming, id) && Placed(current, id)
    requires MergeDocuments(false, base, incoming, current) == Some(m)
    ensures Placed(m, id)
  {
    MergedSlot(false, base, incoming, current, NodeSlot(id));
    MergedSlot(false, base, incoming, current, PositionSlot(id));
    StrictPosition(base.layout, incoming.layout, current.layout, id);
    MergedPresence(base, incoming, current, m, id);
  }

  /** A node has a position exactly when it exists. */
  ghost predicate Placed(d: Document, id: Id) {
    && (FindNode(d.graph.nodes, id).Some? <==> At(d.layout, id).Some?)
    && (At(d.layout, id).Some? ==> InRange(At(d.layout, id).value))
  }

  lemma StrictPosition(base: Layout, incoming: Layout, current: Layout, id: Id)
    requires MergeLayout(false, base, incoming, current).Some?
    ensures At(base, id) == At(incoming, id) || At(current, id) == At(base, id)
  {
    if At(base, id) != At(incoming, id) {
      assert id in base.Keys + incoming.Keys;
      assert !PositionConflict(false, base, incoming, current, id);
    }
  }

  lemma MergedPresence(base: Document, incoming: Document, current: Document, m: Document, id: Id)
    requires Placed(base, id) && Placed(incoming, id) && Placed(current, id)
    requires SlotMerged(base, incoming, current, m, NodeSlot(id))
    requires SlotMerged(base, incoming, current, m, PositionSlot(id))
    requires At(base.layout, id) == At(incoming.layout, id) || At(current.layout, id) == At(base.layout, id)
    ensures Placed(m, id)
  {
    PresenceBySlots(FindNode(base.graph.nodes, id), FindNode(incoming.graph.nodes, id), FindNode(current.graph.nodes, id),
                    At(base.layout, id), At(incoming.layout, id), At(current.layout, id));
  }

  lemma PresenceBySlots(bn: Option<Node>, n: Option<Node>, cn: Option<Node>, bp: Option<Position>, p: Option<Position>, cp: Option<Position>)
    requires (bn.Some? <==> bp.Some?) && (n.Some? <==> p.Some?) && (cn.Some? <==> cp.Some?)
    requires bn == n || cn == bn || cn == n
    requires bp == p || cp == bp
    ensures ThreeWay(bn, n, cn).Some? <==> ThreeWay(bp, p, cp).Some?
  {
  }
}
