/** The document service itself: commands carried out against the stored state
    (packages/pipeline-control/service.ts, packages/control-storage/index.ts). */
module PipelineService {
  import opened Wrappers
  import opened PipelineModel
  import opened Inspection
  import opened Collaboration
  import opened Documents
  import opened PipelineStore

  method ValidDocument(catalog: Catalog, d: Document) returns (r: Result<Document, StoreError>)
    ensures r == Validated(catalog, d)
  {
    var ok := ParsePipeline(catalog, d);
    r := if ok then Success(d) else Failure(InvalidPipeline);
  }

  method MergeChange(catalog: Catalog, base: Document, incoming: Document, current: Document) returns (r: Result<Document, StoreError>)
    ensures r == MergeDocumentChange(catalog, base, incoming, current)
  {
    var graph := MergeIndependentGraph(base.graph, incoming.graph, current.graph);
    if graph.Failure? {
      return Failure(RevisionMismatch);
    }
    var layout := MergePresentation(false, base.layout, incoming.layout, current.layout);
    if layout.None? {
      return Failure(RevisionMismatch);
    }
    r := ValidDocument(catalog, Document(graph.value, layout.value));
  }

  method FindBaseline(history: seq<Entry>, graphRevision: nat) returns (r: Option<Record>)
    ensures r == Baseline(history, graphRevision)
  {
    var i := |history|;
    assert history[..|history|] == history;
    while i > 0
      invariant 0 <= i <= |history|
      invariant Baseline(history, graphRevision) == Baseline(history[..i], graphRevision)
    {
      i := i - 1;
      assert history[..i + 1][..i] == history[..i];
      var before := history[i].before;
      if before.Some? && before.value.graphRevision == graphRevision {
        return before;
      }
    }
    return None;
  }

  method SaveDocument(catalog: Catalog, p: Pipeline, c: Command) returns (r: Result<Document, StoreError>)
    requires c.Save?
    ensures r == SavedDocument(catalog, p, c)
  {
    var graph := if c.graph.Some? then c.graph.value else p.record.document.graph;
    if c.graph.Some? && c.mergeIndependent && p.record.graphRevision != c.graphRevision {
      var baseline := FindBaseline(p.history, c.graphRevision);
      if baseline.None? {
        return Failure(RevisionMismatch);
      }
      var merged := MergeIndependentGraph(baseline.value.document.graph, c.graph.value, p.record.document.graph);
      if merged.Failure? || !RevisionsMatch(p.record, c, false, c.layout.Some?) {
        return Failure(RevisionMismatch);
      }
      graph := merged.value;
    } else if !RevisionsMatch(p.record, c, c.graph.Some?, c.layout.Some?) {
      return Failure(RevisionMismatch);
    }
    if c.graph.Some? && c.graph.value.id != p.record.document.graph.id {
      return Failure(IdentityMismatch);
    }
    r := ValidDocument(catalog, Document(graph, if c.layout.Some? then c.layout.value else p.record.document.layout));
  }

  /** All edits or none: the first failing edit discards the draft. */
  method PatchDocument(catalog: Catalog, p: Pipeline, c: Command) returns (r: Result<Document, StoreError>)
    requires c.Patch?
    ensures r == Patched(catalog, p, c)
  {
    if !RevisionsMatch(p.record, c, true, ChangesTopology(c.edits)) {
      return Failure(RevisionMismatch);
    }
    var draft := p.record.document;
    for i := 0 to |c.edits|
      invariant ApplyEdits(p.record.document, c.edits) == ApplyEdits(draft, c.edits[i..])
    {
      var next := ApplyEdit(draft, c.edits[i]);
      if next.Failure? {
        return Failure(next.error);
      }
      draft := next.value;
    }
    r := ValidDocument(catalog, draft);
  }

  method FindOwnEdit(history: seq<Entry>, actor: Id) returns (i: int)
    ensures i == LastOwnEdit(history, actor)
  {
    i := |history| - 1;
    assert history[..|history|] == history;
    while i >= 0
      invariant -1 <= i < |history|
      invariant LastOwnEdit(history, actor) == LastOwnEdit(history[..i + 1], actor)
    {
      assert history[..i + 1][..i] == history[..i];
      if history[i].actor == actor && !history[i].undone && IsEdit(history[i].kind) {
        return;
      }
      i := i - 1;
    }
  }

  method FindOwnRedo(redo: seq<RedoEntry>, actor: Id) returns (i: int)
    ensures i == LastOwnRedo(redo, actor)
  {
    i := |redo| - 1;
    assert redo[..|redo|] == redo;
    while i >= 0
      invariant -1 <= i < |redo|
      invariant LastOwnRedo(redo, actor) == LastOwnRedo(redo[..i + 1], actor)
    {
      assert redo[..i + 1][..i] == redo[..i];
      if redo[i].actor == actor {
        return;
      }
      i := i - 1;
    }
  }

  method FindOnlyEntry(history: seq<Entry>, id: Id) returns (i: int)
    ensures i == OnlyEntry(history, id)
  {
    var targets: seq<nat> := [];
    for k := 0 to |history|
      invariant forall m :: 0 <= m < |targets| ==> targets[m] < k && history[targets[m]].id == id
      invariant forall m, n :: 0 <= m < n < |targets| ==> targets[m] < targets[n]
      invariant forall j :: 0 <= j < k && history[j].id == id ==> j in targets
    {
      if history[k].id == id {
        targets := targets + [k];
      }
    }
    if |targets| == 1 {
      i := targets[0];
      assert IsOnly(history, id, i);
    } else {
      i := -1;
      forall k ensures !IsOnly(history, id, k) {
        if |targets| > 1 {
          assert history[targets[0]].id == id && history[targets[1]].id == id && targets[0] < targets[1];
        }
      }
    }
  }

  method UndoChange(catalog: Catalog, p: Pipeline, actor: Id) returns (r: Result<Change, StoreError>)
    ensures r == Undone(catalog, p, actor)
  {
    var i := FindOwnEdit(p.history, actor);
    if i < 0 || p.history[i].before.None? {
      return Failure(NothingToUndo);
    }
    var d := MergeChange(catalog, After(p, i), p.history[i].before.value.document, p.record.document);
    if d.Failure? {
      return Failure(d.error);
    }
    r := Success(Change(d.value, p.history[i := p.history[i].(undone := true)],
                        PushRedo(p.redo, RedoEntry(actor, p.record.document, d.value, p.history[i].id))));
  }

  method RedoChange(catalog: Catalog, p: Pipeline, actor: Id) returns (r: Result<Change, StoreError>)
    ensures r == Redone(catalog, p, actor)
  {
    var index := FindOwnRedo(p.redo, actor);
    if index < 0 {
      return Failure(NothingToRedo);
    }
    var redo := p.redo[index];
    var t := FindOnlyEntry(p.history, redo.target);
    if t < 0 || !p.history[t].undone || p.history[t].actor != actor {
      return Failure(NothingToRedo);
    }
    var d := MergeChange(catalog, redo.undoneDocument, redo.document, p.record.document);
    if d.Failure? {
      return Failure(d.error);
    }
    r := Success(Change(d.value, p.history[t := p.history[t].(undone := false)], p.redo[..index] + p.redo[index + 1..]));
  }

  method ChangePipeline(catalog: Catalog, p: Pipeline, actor: Id, c: Command, arranged: Document) returns (r: Result<Change, StoreError>)
    requires !c.Create?
    ensures r == Changed(catalog, p, actor, c, arranged)
  {
    match c
    case Save(_, _, _, _, _, _) =>
      var d := SaveDocument(catalog, p, c);
      r := Edited(p, d);
    case Patch(_, _, _, _) =>
      var d := PatchDocument(catalog, p, c);
      r := Edited(p, d);
    case Arrange(_, _, _, _) =>
      r := if RevisionsMatch(p.record, c, true, true) then Edited(p, Success(arranged)) else Failure(RevisionMismatch);
    case Undo(_, _, _) =>
      if !RevisionsMatch(p.record, c, true, true) {
        return Failure(RevisionMismatch);
      }
      r := UndoChange(catalog, p, actor);
    case Redo(_, _, _) =>
      if !RevisionsMatch(p.record, c, true, true) {
        return Failure(RevisionMismatch);
      }
      r := RedoChange(catalog, p, actor);
  }

  class PipelineControl {
    const catalog: Catalog
    const limits: Limits
    var pipelines: map<Key, Pipeline>
    var receipts: map<ReceiptKey, Receipt>

    ghost function Data(): Database
      reads this
    {
      Database(pipelines, receipts)
    }

    constructor (catalog: Catalog, limits: Limits)
      ensures Data() == Database(map[], map[]) && this.catalog == catalog && this.limits == limits
    {
      this.catalog, this.limits := catalog, limits;
      pipelines, receipts := map[], map[];
    }

    /** One write: replayed receipt, refusal without effect, or one committed change. */
    method Execute(r: Request, arranged: Document, now: nat) returns (result: Result<Record, StoreError>)
      modifies this
      ensures Outcome(Data(), result) == Executed(catalog, limits, old(Data()), r, arranged, now)
    {
      var receiptKey := ReceiptKey(r.actor, r.workspace, r.idempotencyKey);
      if receiptKey in receipts {
        var receipt := receipts[receiptKey];
        return if receipt.command == r.command then Success(receipt.result) else Failure(IdempotencyConflict);
      }
      if |receipts| >= limits.maxReceipts {
        return Failure(StoreLimit);
      }
      var key := TargetKey(r);
      var written: Pipeline;
      if r.command.Create? {
        var d := ValidDocument(catalog, r.command.document);
        if d.Failure? {
          return Failure(d.error);
        }
        if key in pipelines {
          return Failure(AlreadyExists);
        }
        written := Created(d.value, r.requestId, r.actor, now);
      } else {
        if key !in pipelines {
          return Failure(NotFound);
        }
        var change := ChangePipeline(catalog, pipelines[key], r.actor, r.command, arranged);
        if change.Failure? {
          return Failure(change.error);
        }
        written := Committed(pipelines[key], change.value, KindOf(r.command), r.requestId, r.actor, now);
      }
      var draft := Database(pipelines[key := written], receipts[receiptKey := Receipt(r.command, written.record)]);
      if !limits.fits(draft) {
        return Failure(StoreLimit);
      }
      pipelines, receipts := draft.pipelines, draft.receipts;
      result := Success(written.record);
    }
  }
}
