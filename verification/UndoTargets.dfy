/** What undo and redo act on, whoever wrote the history, and exactly when they succeed
    (packages/pipeline-control/service.ts). */
module UndoTargets {
  import opened Wrappers
  import opened PipelineModel
  import opened Inspection
  import opened MergeValidity
  import opened Documents
  import opened MergeConditions
  import opened PipelineStore
  import opened Revisions

  /* ---------- the newest own edit ---------- */

  /** Entry `k` is an edit of the actor that is not undone. */
  predicate OwnLive(h: seq<Entry>, actor: Id, k: int) {
    0 <= k < |h| && h[k].actor == actor && !h[k].undone && h[k].kind != UndoKind && h[k].kind != RedoKind
  }

  ghost predicate NewestOwn(h: seq<Entry>, actor: Id, i: int) {
    OwnLive(h, actor, i) && forall k :: OwnLive(h, actor, k) ==> k <= i
  }

  /** The actor's newest live edit, which is no creation. */
  ghost predicate Undoable(p: Pipeline, actor: Id, i: int) {
    NewestOwn(p.history, actor, i) && p.history[i].before.Some?
  }

  lemma {:induction false} NewestIsLast(h: seq<Entry>, actor: Id)
    ensures forall k :: OwnLive(h, actor, k) ==> k <= LastOwnEdit(h, actor)
    ensures LastOwnEdit(h, actor) >= 0 ==> OwnLive(h, actor, LastOwnEdit(h, actor))
  {
    if h != [] {
      var init := h[..|h| - 1];
      NewestIsLast(init, actor);
      forall k | OwnLive(h, actor, k) && k < |init| ensures OwnLive(init, actor, k) {
      }
    }
  }

  lemma TargetFound(p: Pipeline, actor: Id, i: int)
    ensures Undoable(p, actor, i) <==> i >= 0 && LastOwnEdit(p.history, actor) == i && p.history[i].before.Some?
  {
    NewestIsLast(p.history, actor);
  }

  /** Nothing to undo: no live edit of the actor, or its newest one is the creation. */
  lemma NothingToUndoExactly(catalog: Catalog, p: Pipeline, actor: Id)
    ensures Undone(catalog, p, actor) == Failure(NothingToUndo) <==> forall i :: !Undoable(p, actor, i)
  {
    forall i {
      TargetFound(p, actor, i);
    }
    var i := LastOwnEdit(p.history, actor);
    TargetFound(p, actor, i);
  }

  /* ---------- the redo stack ---------- */

  /** The actor's entries, oldest first. */
  function RedoOf(redo: seq<RedoEntry>, actor: Id): seq<RedoEntry> {
    if redo == [] then []
    else RedoOf(redo[..|redo| - 1], actor) + (if redo[|redo| - 1].actor == actor then [redo[|redo| - 1]] else [])
  }

  lemma {:induction false} RedoOfAppend(a: seq<RedoEntry>, b: seq<RedoEntry>, actor: Id)
    ensures RedoOf(a + b, actor) == RedoOf(a, actor) + RedoOf(b, actor)
  {
    if b != [] {
      RedoOfAppend(a, b[..|b| - 1], actor);
      assert (a + b)[..|a + b| - 1] == a + b[..|b| - 1];
    } else {
      assert a + b == a;
    }
  }

  lemma RedoOfOne(r: RedoEntry, actor: Id)
    ensures RedoOf([r], actor) == if r.actor == actor then [r] else []
  {
    assert [r][..0] == [];
  }

  lemma {:induction false} RedoOfCount(redo: seq<RedoEntry>, actor: Id)
    ensures OwnRedoCount(redo, actor) == |RedoOf(redo, actor)|
  {
    if redo != [] {
      RedoOfCount(redo[..|redo| - 1], actor);
    }
  }

  lemma {:induction false} FirstOwnDropped(redo: seq<RedoEntry>, actor: Id, other: Id)
    ensures RedoOf(WithoutFirstOwn(redo, actor), other)
            == if other == actor && RedoOf(redo, other) != [] then RedoOf(redo, other)[1..] else RedoOf(redo, other)
  {
    if redo != [] {
      var first, rest := redo[0], redo[1..];
      assert redo == [first] + rest;
      RedoOfAppend([first], rest, other);
      RedoOfOne(first, other);
      if first.actor != actor {
        FirstOwnDropped(rest, actor, other);
        RedoOfAppend([first], WithoutFirstOwn(rest, actor), other);
      }
    }
  }

  /** An undo pushes onto its actor's stack, which forgets its oldest entry when it holds 50; nobody else's stack changes. */
  lemma PushedRedo(redo: seq<RedoEntry>, entry: RedoEntry, other: Id)
    ensures var own := RedoOf(redo, other);
            RedoOf(PushRedo(redo, entry), other)
            == if other != entry.actor then own else if |own| < 50 then own + [entry] else own[1..] + [entry]
  {
    RedoOfCount(redo, entry.actor);
    FirstOwnDropped(redo, entry.actor, other);
    RedoOfOne(entry, other);
    RedoOfAppend(redo, [entry], other);
    RedoOfAppend(WithoutFirstOwn(redo, entry.actor), [entry], other);
  }

  /* ---------- the effect of undo ---------- */

  /** The edits are independent of each other, and their merge may be stored. */
  ghost predicate MayCombine(catalog: Catalog, base: Document, incoming: Document, current: Document) {
    && Independent(base.graph, incoming.graph, current.graph)
    && (forall id :: At(incoming.layout, id) == At(base.layout, id) || At(current.layout, id) == At(base.layout, id))
    && MergeFits(catalog, base.graph, incoming.graph, current.graph)
  }

  lemma CombinesExactly(catalog: Catalog, base: Document, incoming: Document, current: Document)
    requires Acceptable(catalog, base) && Acceptable(catalog, incoming) && Acceptable(catalog, current)
    ensures MergeDocumentChange(catalog, base, incoming, current).Success? <==> MayCombine(catalog, base, incoming, current)
  {
    DocumentsMergeExactly(false, base, incoming, current);
    if MergeDocuments(false, base, incoming, current).Some? {
      MergedDocumentIsAcceptable(catalog, base, incoming, current);
    }
  }

  /** Every part of the document is the three-way choice. */
  ghost predicate AllMerged(base: Document, incoming: Document, current: Document, m: Document) {
    forall slot :: SlotMerged(base, incoming, current, m, slot)
  }

  lemma CombinedIsMerged(catalog: Catalog, base: Document, incoming: Document, current: Document)
    requires MergeDocumentChange(catalog, base, incoming, current).Success?
    ensures AllMerged(base, incoming, current, MergeDocumentChange(catalog, base, incoming, current).value)
  {
    forall slot ensures SlotMerged(base, incoming, current, MergeDocuments(false, base, incoming, current).value, slot) {
      MergedSlot(false, base, incoming, current, slot);
    }
  }

  /** Only the undone flag of entry `i` differs. */
  ghost predicate Flagged(h: seq<Entry>, k: seq<Entry>, i: nat, undone: bool) {
    && i < |h| == |k| && k[i] == h[i].(undone := undone)
    && forall j :: 0 <= j < |h| && j != i ==> k[j] == h[j]
  }

  /** Undo reverses its target: it succeeds exactly when what came after is independent of it. */
  lemma UndoReversesItsTarget(catalog: Catalog, id: Id, p: Pipeline, actor: Id, i: nat)
    requires Consistent(catalog, id, p) && Undoable(p, actor, i)
    ensures i > 0
    ensures Undone(catalog, p, actor).Success?
            <==> MayCombine(catalog, RecordAt(p, i).document, RecordAt(p, i - 1).document, p.record.document)
    ensures Undone(catalog, p, actor).Success? ==>
              var change := Undone(catalog, p, actor).value;
              && AllMerged(RecordAt(p, i).document, RecordAt(p, i - 1).document, p.record.document, change.document)
              && Flagged(p.history, change.history, i, true)
              && change.redo == PushRedo(p.redo, RedoEntry(actor, p.record.document, change.document, p.history[i].id))
  {
    TargetFound(p, actor, i);
    assert Sound(catalog, id, RecordAt(p, i).document) && Sound(catalog, id, RecordAt(p, i - 1).document);
    assert Sound(catalog, id, RecordAt(p, |p.history| - 1).document);
    CombinesExactly(catalog, RecordAt(p, i).document, RecordAt(p, i - 1).document, p.record.document);
    if Undone(catalog, p, actor).Success? {
      CombinedIsMerged(catalog, RecordAt(p, i).document, RecordAt(p, i - 1).document, p.record.document);
    }
  }

  /* ---------- the effect of redo ---------- */

  ghost predicate NewestOwnRedo(redo: seq<RedoEntry>, actor: Id, i: int) {
    0 <= i < |redo| && redo[i].actor == actor && forall k :: i < k < |redo| ==> redo[k].actor != actor
  }

  lemma {:induction false} NewestRedoIsLast(redo: seq<RedoEntry>, actor: Id, i: int)
    ensures NewestOwnRedo(redo, actor, i) <==> i >= 0 && LastOwnRedo(redo, actor) == i
  {
    if redo != [] {
      NewestRedoIsLast(redo[..|redo| - 1], actor, i);
    }
  }

  /** The actor's newest redo entry names exactly one history entry, which is the actor's own and undone. */
  ghost predicate Redoable(p: Pipeline, actor: Id, index: int, t: int) {
    && NewestOwnRedo(p.redo, actor, index)
    && 0 <= t < |p.history| && p.history[t].undone && p.history[t].actor == actor
    && forall k :: 0 <= k < |p.history| ==> (p.history[k].id == p.redo[index].target <==> k == t)
  }

  lemma RedoTargetFound(p: Pipeline, actor: Id, index: int, t: int)
    ensures Redoable(p, actor, index, t)
            <==> index >= 0 && LastOwnRedo(p.redo, actor) == index && t >= 0 && OnlyEntry(p.history, p.redo[index].target) == t
                 && p.history[t].undone && p.history[t].actor == actor
  {
    NewestRedoIsLast(p.redo, actor, index);
    if Redoable(p, actor, index, t) {
      assert IsOnly(p.history, p.redo[index].target, t);
    }
  }

  lemma NothingToRedoExactly(catalog: Catalog, p: Pipeline, actor: Id)
    ensures Redone(catalog, p, actor) == Failure(NothingToRedo) <==> forall index, t :: !Redoable(p, actor, index, t)
  {
    forall index, t {
      RedoTargetFound(p, actor, index, t);
    }
    var index := LastOwnRedo(p.redo, actor);
    if index >= 0 {
      RedoTargetFound(p, actor, index, OnlyEntry(p.history, p.redo[index].target));
    }
  }

  /** Redo replays its entry onto the current document and takes the target's flag back. */
  lemma RedoReplaysItsEntry(catalog: Catalog, p: Pipeline, actor: Id, index: nat, t: nat)
    requires Redoable(p, actor, index, t)
    requires Acceptable(catalog, p.redo[index].undoneDocument) && Acceptable(catalog, p.redo[index].document) && Acceptable(catalog, p.record.document)
    ensures Redone(catalog, p, actor).Success?
            <==> MayCombine(catalog, p.redo[index].undoneDocument, p.redo[index].document, p.record.document)
    ensures Redone(catalog, p, actor).Success? ==>
              var change := Redone(catalog, p, actor).value;
              && AllMerged(p.redo[index].undoneDocument, p.redo[index].document, p.record.document, change.document)
              && Flagged(p.history, change.history, t, false)
              && change.redo == p.redo[..index] + p.redo[index + 1..]
  {
    RedoTargetFound(p, actor, index, t);
    CombinesExactly(catalog, p.redo[index].undoneDocument, p.redo[index].document, p.record.document);
    if Redone(catalog, p, actor).Success? {
      CombinedIsMerged(catalog, p.redo[index].undoneDocument, p.redo[index].document, p.record.document);
    }
  }
}
