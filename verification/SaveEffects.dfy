/** What an accepted save or patch stores, and exactly when one is accepted (packages/pipeline-control/service.ts). */
module SaveEffects {
  import opened Wrappers
  import opened PipelineModel
  import opened Inspection
  import opened Collaboration
  import opened MergeValidity
  import opened MergeConditions
  import opened Documents
  import opened PipelineStore
  import opened Revisions
  import StoreRuns

  /* ---------- how a write is recorded ---------- */

  /** The entry that records a write over `p` that left the record `now`. */
  predicate Records(e: Entry, r: Request, p: Pipeline, now: Record) {
    && e.id == r.requestId && e.actor == r.actor && e.kind == KindOf(r.command) && !e.undone
    && e.before == Some(p.record) && e.graphRevision == now.graphRevision && e.layoutRevision == now.layoutRevision
  }

  /** A write is signed, and recorded exactly when it changed the document; then an edit empties every redo stack. */
  lemma WritesAreRecorded(catalog: Catalog, id: Id, p: Pipeline, r: Request, arranged: Document, now: nat)
    requires Consistent(catalog, id, p) && !r.command.Create? && (r.command.Arrange? ==> Sound(catalog, id, arranged))
    requires Written(catalog, Some(p), r, arranged, now).Success?
    ensures var q := Written(catalog, Some(p), r, arranged, now).value;
            && q.record.updatedBy == r.actor && q.record.updatedAt == now
            && SameEntries(p.history, q.history[..|p.history|])
            && (if q.record.document == p.record.document
                then |q.history| == |p.history| && SameContent(q.record, p.record)
                else |q.history| == |p.history| + 1 && Records(q.history[|p.history|], r, p, q.record))
            && (!r.command.Undo? && !r.command.Redo? ==> q.redo == if q.record.document == p.record.document then p.redo else [])
  {
    ChangeIsSound(catalog, id, p, r.actor, r.command, arranged);
    var change := Changed(catalog, p, r.actor, r.command, arranged).value;
    CommitIsRecorded(p, change, KindOf(r.command), r.requestId, r.actor, now);
  }

  lemma CommitIsRecorded(p: Pipeline, change: Change, kind: Kind, requestId: Id, actor: Id, now: nat)
    ensures var q := Committed(p, change, kind, requestId, actor, now);
            && q.record == NextRecord(p.record, change.document, actor, now)
            && |change.history| <= |q.history| && q.history[..|change.history|] == change.history
            && (change.document == p.record.document ==> q.history == change.history && q.redo == change.redo)
  {
  }

  /* ---------- saving ---------- */

  /** Record `i` is one that carried this graph revision. */
  predicate Carried(p: Pipeline, revision: nat, i: int) {
    0 <= i < |p.history| && RecordAt(p, i).graphRevision == revision
  }

  /** The graph a save leaves: the current one, the submitted one, or the changes between the submitted graph and the one
      its revision named, applied to the current one. */
  ghost predicate GraphSaved(p: Pipeline, c: Command, g: Graph)
    requires c.Save?
  {
    var current := p.record.document.graph;
    if c.graph.None? then g == current
    else if c.graphRevision == p.record.graphRevision then g == c.graph.value
    else exists i :: Carried(p, c.graphRevision, i) && IsThreeWay(RecordAt(p, i).document.graph, c.graph.value, current, g)
  }

  /** The document a save leaves, up to the order of merged nodes. */
  ghost predicate Saves(p: Pipeline, c: Command, d: Document)
    requires c.Save?
  {
    && GraphSaved(p, c, d.graph)
    && d.layout == if c.layout.Some? then c.layout.value else p.record.document.layout
  }

  ghost predicate MayMerge(p: Pipeline, c: Command)
    requires c.Save? && c.graph.Some?
  {
    && c.mergeIndependent && 1 <= c.graphRevision < p.record.graphRevision
    && forall i :: Carried(p, c.graphRevision, i) ==>
         Independent(RecordAt(p, i).document.graph, c.graph.value, p.record.document.graph)
  }

  /** The revisions allow it: every submitted half is at the current one, or the graph merges. */
  ghost predicate MaySave(p: Pipeline, c: Command)
    requires c.Save?
  {
    && (c.layout.Some? ==> c.layoutRevision == p.record.layoutRevision)
    && (c.graph.Some? ==> c.graphRevision == p.record.graphRevision || MayMerge(p, c))
  }

  /** The baseline of a merge is the graph its revision named. */
  lemma BaselineNames(catalog: Catalog, id: Id, p: Pipeline, revision: nat, i: int)
    requires Consistent(catalog, id, p) && revision != p.record.graphRevision && Carried(p, revision, i)
    ensures Baseline(p.history, revision).Some?
    ensures Baseline(p.history, revision).value.document.graph == RecordAt(p, i).document.graph
  {
    var last := |p.history| - 1;
    RevisionsNameContent(catalog, id, p, i, last);
    RevisionsNameContent(catalog, id, p, 0, i);
    EveryOlderRevisionHasItsBaseline(catalog, id, p, revision);
  }

  lemma OlderRevisionsWereCarried(catalog: Catalog, id: Id, p: Pipeline, revision: nat)
    requires Consistent(catalog, id, p) && revision != p.record.graphRevision
    ensures Baseline(p.history, revision).Some? <==> 1 <= revision < p.record.graphRevision
    ensures Baseline(p.history, revision).Some? ==> exists i :: Carried(p, revision, i)
  {
    OnlyOlderRevisionsHaveABaseline(catalog, id, p, revision);
    if 1 <= revision < p.record.graphRevision {
      var i := RevisionWasStored(catalog, id, p, revision, |p.history| - 1);
      assert Carried(p, revision, i);
    }
  }

  /** The merge of a save, if its baseline is still there. */
  lemma MergedSave(catalog: Catalog, id: Id, p: Pipeline, c: Command)
    requires Consistent(catalog, id, p) && c.Save? && c.graph.Some? && c.mergeIndependent && c.graphRevision != p.record.graphRevision
    ensures var base := Baseline(p.history, c.graphRevision);
            MayMerge(p, c) <==> base.Some? && Merge(base.value.document.graph, c.graph.value, p.record.document.graph).Success?
  {
    OlderRevisionsWereCarried(catalog, id, p, c.graphRevision);
    forall i | Carried(p, c.graphRevision, i)
      ensures Baseline(p.history, c.graphRevision).Some?
      ensures Baseline(p.history, c.graphRevision).value.document.graph == RecordAt(p, i).document.graph
    {
      BaselineNames(catalog, id, p, c.graphRevision, i);
    }
    var base := Baseline(p.history, c.graphRevision);
    if base.Some? {
      MergeSucceedsExactly(base.value.document.graph, c.graph.value, p.record.document.graph);
    }
  }

  lemma GraphIsSaved(catalog: Catalog, id: Id, p: Pipeline, c: Command)
    requires Consistent(catalog, id, p) && c.Save?
    ensures SavedGraph(p, c).Success? <==> MaySave(p, c)
    ensures SavedGraph(p, c).Success? ==> GraphSaved(p, c, SavedGraph(p, c).value)
    ensures SavedGraph(p, c).Failure? ==> SavedGraph(p, c) == Failure(RevisionMismatch)
  {
    if c.graph.Some? && c.mergeIndependent && c.graphRevision != p.record.graphRevision {
      MergedSave(catalog, id, p, c);
      var base := Baseline(p.history, c.graphRevision);
      if base.Some? && Merge(base.value.document.graph, c.graph.value, p.record.document.graph).Success? {
        MergeIsThreeWay(base.value.document.graph, c.graph.value, p.record.document.graph);
        OlderRevisionsWereCarried(catalog, id, p, c.graphRevision);
        var i :| Carried(p, c.graphRevision, i);
        BaselineNames(catalog, id, p, c.graphRevision, i);
      }
    }
  }

  /** Two graphs a save may leave differ in the order of their nodes only. */
  lemma SavedGraphsAgree(catalog: Catalog, id: Id, p: Pipeline, c: Command, g: Graph, h: Graph)
    requires Consistent(catalog, id, p) && c.Save? && GraphSaved(p, c, g) && GraphSaved(p, c, h)
    ensures Agree(g, h)
  {
    if c.graph.Some? && c.graphRevision != p.record.graphRevision {
      var i :| Carried(p, c.graphRevision, i) && IsThreeWay(RecordAt(p, i).document.graph, c.graph.value, p.record.document.graph, g);
      var j :| Carried(p, c.graphRevision, j) && IsThreeWay(RecordAt(p, j).document.graph, c.graph.value, p.record.document.graph, h);
      BaselineNames(catalog, id, p, c.graphRevision, i);
      BaselineNames(catalog, id, p, c.graphRevision, j);
    }
  }

  /** A merged graph has unique nodes; any other is the one submitted, or the current one. */
  lemma SavedNodes(catalog: Catalog, id: Id, p: Pipeline, c: Command)
    requires Consistent(catalog, id, p) && c.Save? && SavedGraph(p, c).Success?
    ensures (c.graph.Some? && c.graphRevision != p.record.graphRevision) ==> UniqueIds(SavedGraph(p, c).value.nodes)
  {
    if c.graph.Some? && c.graphRevision != p.record.graphRevision {
      var base := Baseline(p.history, c.graphRevision).value.document.graph;
      assert Sound(catalog, id, RecordAt(p, |p.history| - 1).document);
      MergeKeepsUniqueIds(CandidateIds(base, c.graph.value), base.nodes, c.graph.value.nodes, p.record.document.graph.nodes);
    }
  }

  lemma DocumentIsSaved(catalog: Catalog, id: Id, p: Pipeline, c: Command)
    requires Consistent(catalog, id, p) && c.Save?
    ensures SavedDocument(catalog, p, c).Success? <==> MaySave(p, c) && SameIdentity(p, c) && exists d :: Saves(p, c, d) && Acceptable(catalog, d)
    ensures SavedDocument(catalog, p, c).Success? ==> Saves(p, c, SavedDocument(catalog, p, c).value)
    ensures SavedDocument(catalog, p, c) == Failure(RevisionMismatch) <==> !MaySave(p, c)
  {
    GraphIsSaved(catalog, id, p, c);
    if SavedGraph(p, c).Success? {
      var saved := Document(SavedGraph(p, c).value, if c.layout.Some? then c.layout.value else p.record.document.layout);
      assert Saves(p, c, saved);
      forall d | Saves(p, c, d) && Acceptable(catalog, d) ensures Acceptable(catalog, saved) {
        SavedAlike(catalog, id, p, c, d, saved);
      }
    }
  }

  predicate SameIdentity(p: Pipeline, c: Command)
    requires c.Save?
  {
    c.graph.Some? ==> c.graph.value.id == p.record.document.graph.id
  }

  lemma SavedAlike(catalog: Catalog, id: Id, p: Pipeline, c: Command, d: Document, saved: Document)
    requires Consistent(catalog, id, p) && c.Save? && SavedGraph(p, c) == Success(saved.graph)
    requires Saves(p, c, d) && Saves(p, c, saved) && Acceptable(catalog, d)
    ensures Acceptable(catalog, saved)
  {
    if c.graph.Some? && c.graphRevision != p.record.graphRevision {
      SavedGraphsAgree(catalog, id, p, c, d.graph, saved.graph);
      SavedNodes(catalog, id, p, c);
      SameMeans(d, saved);
      AcceptableUpToOrder(catalog, d, saved);
    } else {
      assert d == saved;
    }
  }

  lemma SaveExecuted(catalog: Catalog, limits: Limits, data: Database, r: Request, now: nat)
    requires r.command.Save? && TargetKey(r) in data.pipelines && Fresh(limits, data, r)
    ensures var saved := SavedDocument(catalog, data.pipelines[TargetKey(r)], r.command);
            var outcome := Executed(catalog, limits, data, r, StoreRuns.Nothing, now);
            && (Permitted(outcome.result) <==> saved.Success?)
            && (outcome.result == Failure(RevisionMismatch) <==> saved == Failure(RevisionMismatch))
            && (outcome.result.Success? ==> Answers(outcome, TargetKey(r)) && outcome.result.value.document == saved.value)
  {
  }

  /** In any run a save is permitted exactly when its revisions allow it, it keeps the pipeline's id, and what it leaves is
      acceptable; the answer is the stored record, and it holds what the save was to leave. */
  lemma SaveSucceedsExactly(catalog: Catalog, limits: Limits, steps: seq<StoreRuns.Step>, r: Request, now: nat)
    requires r.command.Save? && TargetKey(r) in StoreRuns.Run(catalog, limits, steps).data.pipelines
    requires Fresh(limits, StoreRuns.Run(catalog, limits, steps).data, r)
    ensures var data := StoreRuns.Run(catalog, limits, steps).data;
            var p, c := data.pipelines[TargetKey(r)], r.command;
            var outcome := Executed(catalog, limits, data, r, StoreRuns.Nothing, now);
            && (Permitted(outcome.result) <==> MaySave(p, c) && SameIdentity(p, c) && exists d :: Saves(p, c, d) && Acceptable(catalog, d))
            && (outcome.result == Failure(RevisionMismatch) <==> !MaySave(p, c))
            && (outcome.result.Success? ==> Answers(outcome, TargetKey(r)) && Saves(p, c, outcome.result.value.document))
  {
    var data := StoreRuns.Run(catalog, limits, steps).data;
    StoreRuns.RunsAreInvariant(catalog, limits, steps);
    DocumentIsSaved(catalog, TargetKey(r).pipeline, data.pipelines[TargetKey(r)], r.command);
    SaveExecuted(catalog, limits, data, r, now);
  }

  /* ---------- patching ---------- */

  /** All parts but these are as they were. */
  ghost predicate KeptBut(d: Document, e: Document, changed: set<Slot>) {
    e.graph.id == d.graph.id && forall slot :: slot !in changed ==> Get(e, slot) == Get(d, slot)
  }

  ghost predicate Possible(d: Document, edit: Edit) {
    match edit
    case AddNode(node, _) => node.id !in NodeIds(d.graph.nodes)
    case Disconnect(id) => exists x :: x in d.graph.edges && x.id == id
    case RemoveNode(id) => id in NodeIds(d.graph.nodes)
    case UpdateNode(id, _, _, _) => id in NodeIds(d.graph.nodes)
    case _ => true
  }

  function Setting(config: Config, k: Id): Option<Value> {
    if k in config then Some(config[k]) else None
  }

  /** The node with what the edit says about it; configuration fields that it does not name stay. */
  ghost predicate NodeUpdated(n: Node, m: Node, edit: Edit)
    requires edit.UpdateNode?
  {
    && m.(title := n.title, config := n.config, binding := n.binding) == n
    && m.title == (if edit.title.Some? then edit.title.value else n.title)
    && m.binding == (if edit.binding.Some? then edit.binding.value else n.binding)
    && (edit.config.None? ==> m.config == n.config)
    && (edit.config.Some? ==> forall k :: Setting(m.config, k) == if k in edit.config.value then Setting(edit.config.value, k) else Setting(n.config, k))
  }

  /** What one edit changes. */
  ghost predicate Done(d: Document, edit: Edit, e: Document) {
    match edit
    case Rename(name) => KeptBut(d, e, {NameSlot}) && e.graph.name == name
    case AddNode(node, place) =>
      && KeptBut(d, e, {NodeSlot(node.id), PositionSlot(node.id)})
      && FindNode(e.graph.nodes, node.id) == Some(node)
      && At(e.layout, node.id) == (if place.Some? then place else Some(Position(40.0, (80 + 180 * (|d.graph.nodes| + 1)) as real, None)))
    case Connect(edge) => KeptBut(d, e, {EdgesSlot}) && e.graph.edges == d.graph.edges + [edge]
    case Disconnect(id) =>
      && KeptBut(d, e, {EdgesSlot})
      && forall x :: multiset(e.graph.edges)[x] == if x.id == id then 0 else multiset(d.graph.edges)[x]
    case RemoveNode(id) =>
      && KeptBut(d, e, {EdgesSlot, NodeSlot(id), PositionSlot(id)})
      && FindNode(e.graph.nodes, id).None? && At(e.layout, id).None?
      && forall x :: multiset(e.graph.edges)[x] == if HasEnd(x, id) then 0 else multiset(d.graph.edges)[x]
    case UpdateNode(id, _, _, _) =>
      && KeptBut(d, e, {NodeSlot(id)})
      && FindNode(d.graph.nodes, id).Some? && FindNode(e.graph.nodes, id).Some?
      && NodeUpdated(FindNode(d.graph.nodes, id).value, FindNode(e.graph.nodes, id).value, edit)
  }

  lemma {:induction false} WithoutEdgeCount(edges: seq<Edge>, id: Id, x: Edge)
    ensures multiset(WithoutEdge(edges, id))[x] == if x.id == id then 0 else multiset(edges)[x]
  {
    if edges != [] {
      assert edges == [edges[0]] + edges[1..];
      WithoutEdgeCount(edges[1..], id, x);
    }
  }

  lemma {:induction false} WithoutIncidentCount(edges: seq<Edge>, id: Id, x: Edge)
    ensures multiset(WithoutIncident(edges, id))[x] == if HasEnd(x, id) then 0 else multiset(edges)[x]
  {
    if edges != [] {
      assert edges == [edges[0]] + edges[1..];
      WithoutIncidentCount(edges[1..], id, x);
    }
  }

  lemma {:induction false} FindAppended(nodes: seq<Node>, n: Node, x: Id)
    requires FindNode(nodes, n.id).None?
    ensures FindNode(nodes + [n], x) == if x == n.id then Some(n) else FindNode(nodes, x)
  {
    if nodes != [] {
      assert (nodes + [n])[1..] == nodes[1..] + [n];
      FindAppended(nodes[1..], n, x);
    }
  }

  lemma AddIsDone(d: Document, edit: Edit)
    requires edit.AddNode? && ApplyEdit(d, edit).Success?
    ensures Done(d, edit, ApplyEdit(d, edit).value)
  {
    forall x ensures FindNode(d.graph.nodes + [edit.node], x) == if x == edit.node.id then Some(edit.node) else FindNode(d.graph.nodes, x) {
      FindAppended(d.graph.nodes, edit.node, x);
    }
  }

  lemma DisconnectIsDone(d: Document, edit: Edit)
    requires edit.Disconnect? && ApplyEdit(d, edit).Success?
    ensures Done(d, edit, ApplyEdit(d, edit).value)
  {
    forall x {
      WithoutEdgeCount(d.graph.edges, edit.edgeId, x);
    }
  }

  lemma RemoveIsDone(d: Document, edit: Edit)
    requires edit.RemoveNode? && ApplyEdit(d, edit).Success?
    ensures Done(d, edit, ApplyEdit(d, edit).value)
  {
    var id := edit.nodeId;
    var e := ApplyEdit(d, edit).value;
    forall x ensures multiset(e.graph.edges)[x] == if HasEnd(x, id) then 0 else multiset(d.graph.edges)[x] {
      WithoutIncidentCount(d.graph.edges, id, x);
    }
    forall slot | slot !in {EdgesSlot, NodeSlot(id), PositionSlot(id)} ensures Get(e, slot) == Get(d, slot) {
      if slot.NodeSlot? {
        FindWithout(d.graph.nodes, id, slot.id);
      }
    }
    FindWithout(d.graph.nodes, id, id);
  }

  /** The node as `ApplyEdit` leaves it. */
  function Updated(n: Node, edit: Edit): Node
    requires edit.UpdateNode?
  {
    var named := if edit.title.Some? then n.(title := edit.title.value) else n;
    var configured := if edit.config.Some? then named.(config := named.config + edit.config.value) else named;
    if edit.binding.Some? then configured.(binding := edit.binding.value) else configured
  }

  lemma UpdatedIsUpdated(n: Node, edit: Edit)
    requires edit.UpdateNode?
    ensures NodeUpdated(n, Updated(n, edit), edit)
  {
  }

  lemma UpdateApplied(d: Document, edit: Edit)
    requires edit.UpdateNode? && FindNode(d.graph.nodes, edit.target).Some?
    ensures var n := FindNode(d.graph.nodes, edit.target).value;
            ApplyEdit(d, edit) == Success(d.(graph := d.graph.(nodes := ReplaceOrAppend(d.graph.nodes, Updated(n, edit)))))
  {
  }

  lemma ReplacedOnly(d: Document, n: Node)
    ensures var e := d.(graph := d.graph.(nodes := ReplaceOrAppend(d.graph.nodes, n)));
            KeptBut(d, e, {NodeSlot(n.id)}) && FindNode(e.graph.nodes, n.id) == Some(n)
  {
    var e := d.(graph := d.graph.(nodes := ReplaceOrAppend(d.graph.nodes, n)));
    FindReplaced(d.graph.nodes, n, n.id);
    forall slot | slot !in {NodeSlot(n.id)} ensures Get(e, slot) == Get(d, slot) {
      if slot.NodeSlot? {
        FindReplaced(d.graph.nodes, n, slot.id);
      }
    }
  }

  lemma UpdateIsDone(d: Document, edit: Edit)
    requires edit.UpdateNode? && FindNode(d.graph.nodes, edit.target).Some?
    ensures ApplyEdit(d, edit).Success? && Done(d, edit, ApplyEdit(d, edit).value)
  {
    var n := FindNode(d.graph.nodes, edit.target).value;
    UpdateApplied(d, edit);
    UpdatedIsUpdated(n, edit);
    ReplacedOnly(d, Updated(n, edit));
  }

  lemma EditIsDone(d: Document, edit: Edit)
    ensures ApplyEdit(d, edit).Success? <==> Possible(d, edit)
    ensures ApplyEdit(d, edit).Success? ==> Done(d, edit, ApplyEdit(d, edit).value)
    ensures ApplyEdit(d, edit).Failure? ==> ApplyEdit(d, edit).error == Objection(edit)
  {
    if ApplyEdit(d, edit).Success? {
      match edit
      case AddNode(_, _) => AddIsDone(d, edit);
      case Disconnect(_) => DisconnectIsDone(d, edit);
      case RemoveNode(_) => RemoveIsDone(d, edit);
      case UpdateNode(_, _, _, _) => UpdateIsDone(d, edit);
      case _ =>
    }
  }

  function Objection(edit: Edit): StoreError {
    if edit.AddNode? then DuplicateId else if edit.Disconnect? then UnknownEdge else UnknownNodeId
  }

  /** The documents between the edits, each done after the one before it. */
  ghost predicate Chain(ds: seq<Document>, d: Document, edits: seq<Edit>) {
    && |ds| == |edits| + 1 && ds[0] == d
    && forall k :: 0 <= k < |edits| ==> Possible(ds[k], edits[k]) && Done(ds[k], edits[k], ds[k + 1])
  }

  lemma {:induction false} EditsAreAChain(d: Document, edits: seq<Edit>) returns (ds: seq<Document>, k: nat)
    ensures k <= |edits| && Chain(ds, d, edits[..k])
    ensures if ApplyEdits(d, edits).Success? then k == |edits| && ds[k] == ApplyEdits(d, edits).value
            else k < |edits| && !Possible(ds[k], edits[k]) && ApplyEdits(d, edits).error == Objection(edits[k])
    decreases |edits|
  {
    ds, k := [d], 0;
    if edits != [] {
      EditIsDone(d, edits[0]);
      if Possible(d, edits[0]) {
        var next := ApplyEdit(d, edits[0]).value;
        var es, m := EditsAreAChain(next, edits[1..]);
        ds, k := [d] + es, m + 1;
        ChainLonger(d, edits[0], edits[1..][..m], next, es);
        assert edits[..k] == [edits[0]] + edits[1..][..m];
      }
    }
  }

  lemma ChainLonger(d: Document, edit: Edit, edits: seq<Edit>, next: Document, es: seq<Document>)
    requires Possible(d, edit) && Done(d, edit, next) && Chain(es, next, edits)
    ensures Chain([d] + es, d, [edit] + edits)
  {
    var ds, all := [d] + es, [edit] + edits;
    forall k | 0 <= k < |all| ensures Possible(ds[k], all[k]) && Done(ds[k], all[k], ds[k + 1]) {
      if k > 0 {
        assert Possible(es[k - 1], edits[k - 1]) && Done(es[k - 1], edits[k - 1], es[k - 1 + 1]);
      }
    }
  }

  /** The revisions a patch needs: the graph's, and the layout's when it adds or removes a node. */
  ghost predicate MayPatch(p: Pipeline, c: Command)
    requires c.Patch?
  {
    && c.graphRevision == p.record.graphRevision
    && ((exists k :: 0 <= k < |c.edits| && (c.edits[k].AddNode? || c.edits[k].RemoveNode?)) ==> c.layoutRevision == p.record.layoutRevision)
  }

  /** A patch does all its edits, one after the other, or it is refused: for its revisions, for its first impossible edit,
      or because what it would leave is not acceptable. */
  lemma PatchIsAllOrNothing(catalog: Catalog, p: Pipeline, c: Command) returns (ds: seq<Document>, k: nat)
    requires c.Patch?
    ensures k <= |c.edits| && Chain(ds, p.record.document, c.edits[..k]) && (k < |c.edits| ==> !Possible(ds[k], c.edits[k]))
    ensures Patched(catalog, p, c).Success? <==> MayPatch(p, c) && k == |c.edits| && Acceptable(catalog, ds[k])
    ensures Patched(catalog, p, c).Success? ==> Patched(catalog, p, c).value == ds[k]
    ensures Patched(catalog, p, c).Failure? ==>
              Patched(catalog, p, c).error
              == if !MayPatch(p, c) then RevisionMismatch else if k < |c.edits| then Objection(c.edits[k]) else InvalidPipeline
  {
    ds, k := EditsAreAChain(p.record.document, c.edits);
    TopologyMeans(c.edits);
  }

  lemma PatchExecuted(catalog: Catalog, limits: Limits, data: Database, r: Request, now: nat)
    requires r.command.Patch? && TargetKey(r) in data.pipelines && Fresh(limits, data, r)
    requires Patched(catalog, data.pipelines[TargetKey(r)], r.command) != Failure(StoreLimit)
    ensures var patched := Patched(catalog, data.pipelines[TargetKey(r)], r.command);
            var outcome := Executed(catalog, limits, data, r, StoreRuns.Nothing, now);
            && (Permitted(outcome.result) <==> patched.Success?)
            && (patched.Failure? ==> outcome.result == Failure(patched.error))
            && (outcome.result.Success? ==> Answers(outcome, TargetKey(r)) && outcome.result.value.document == patched.value)
  {
  }

  /** In any store a patch is permitted exactly when its revisions allow it, all its edits can be done in order and what
      they leave is acceptable, and then it stores that. */
  lemma PatchSucceedsExactly(catalog: Catalog, limits: Limits, data: Database, r: Request, now: nat) returns (ds: seq<Document>, k: nat)
    requires r.command.Patch? && TargetKey(r) in data.pipelines && Fresh(limits, data, r)
    ensures var p, c := data.pipelines[TargetKey(r)], r.command;
            var outcome := Executed(catalog, limits, data, r, StoreRuns.Nothing, now);
            && k <= |c.edits| && Chain(ds, p.record.document, c.edits[..k]) && (k < |c.edits| ==> !Possible(ds[k], c.edits[k]))
            && (Permitted(outcome.result) <==> MayPatch(p, c) && k == |c.edits| && Acceptable(catalog, ds[k]))
            && (outcome.result.Success? ==> Answers(outcome, TargetKey(r)) && outcome.result.value.document == ds[k])
  {
    ds, k := PatchIsAllOrNothing(catalog, data.pipelines[TargetKey(r)], r.command);
    PatchExecuted(catalog, limits, data, r, now);
  }

  lemma TopologyMeans(edits: seq<Edit>)
    ensures ChangesTopology(edits) <==> exists k :: 0 <= k < |edits| && (edits[k].AddNode? || edits[k].RemoveNode?)
  {
    if ChangesTopology(edits) {
      var e :| e in edits && (e.AddNode? || e.RemoveNode?);
      var k :| 0 <= k < |edits| && edits[k] == e;
    }
    if k :| 0 <= k < |edits| && (edits[k].AddNode? || edits[k].RemoveNode?) {
      assert edits[k] in edits;
    }
  }
}
