/** With several writers, an undo or redo changes only what its target edit changed (packages/pipeline-control/service.ts). */
module UndoFrames {
  import opened Wrappers
  import opened PipelineModel
  import opened Inspection
  import opened Documents
  import opened PipelineStore
  import opened Revisions
  import opened UndoTargets
  import StoreRuns

  /** Undo gives back the old value of the actor's newest live edit in every slot that edit changed, and leaves every
      other slot alone; it succeeds only when each changed slot still holds the edit's value or already the old one. */
  lemma UndoTouchesOnlyItsTarget(catalog: Catalog, p: Pipeline, actor: Id, i: nat, slot: Slot)
    requires Undoable(p, actor, i) && Undone(catalog, p, actor).Success?
    ensures var was, made := Get(p.history[i].before.value.document, slot), Get(After(p, i), slot);
            var now, next := Get(p.record.document, slot), Get(Undone(catalog, p, actor).value.document, slot);
            next == (if made == was then now else was) && (made == was || now == made || now == was)
  {
    TargetFound(p, actor, i);
    MergedSlot(false, After(p, i), p.history[i].before.value.document, p.record.document, slot);
  }

  /** Edit `t` changed this slot. */
  ghost predicate EditChanged(p: Pipeline, t: nat, slot: Slot) {
    0 < t < |p.history| && Get(RecordAt(p, t).document, slot) != Get(RecordAt(p, t - 1).document, slot)
  }

  /** The redo entry replays no more than what edit `t` of the same actor changed, between acceptable documents. */
  ghost predicate LinkedTo(catalog: Catalog, p: Pipeline, r: RedoEntry, t: int) {
    && 0 < t < |p.history|
    && p.history[t].id == r.target && p.history[t].actor == r.actor
    && Acceptable(catalog, r.document) && Acceptable(catalog, r.undoneDocument)
    && forall slot :: Get(r.document, slot) != Get(r.undoneDocument, slot) ==> EditChanged(p, t, slot)
  }

  ghost predicate Linked(catalog: Catalog, p: Pipeline) {
    forall r :: r in p.redo ==> exists t :: LinkedTo(catalog, p, r, t)
  }

  lemma LinkKept(catalog: Catalog, p: Pipeline, q: Pipeline, r: RedoEntry, t: int)
    requires Extends(p, q) && LinkedTo(catalog, p, r, t)
    requires q.history[t].id == p.history[t].id && q.history[t].actor == p.history[t].actor
    ensures LinkedTo(catalog, q, r, t)
  {
    assert SameContent(RecordAt(q, t), RecordAt(p, t)) && SameContent(RecordAt(q, t - 1), RecordAt(p, t - 1));
    forall slot | Get(r.document, slot) != Get(r.undoneDocument, slot) ensures EditChanged(q, t, slot) {
      assert EditChanged(p, t, slot);
    }
  }

  lemma {:induction false} RoomInside(redo: seq<RedoEntry>, actor: Id)
    ensures forall r :: r in WithoutFirstOwn(redo, actor) ==> r in redo
  {
    if redo != [] {
      RoomInside(redo[1..], actor);
    }
  }

  lemma UndoneIsLinked(catalog: Catalog, id: Id, p: Pipeline, actor: Id)
    requires Consistent(catalog, id, p) && Undone(catalog, p, actor).Success?
    ensures forall r :: r in Undone(catalog, p, actor).value.redo ==> r in p.redo || exists t :: LinkedTo(catalog, p, r, t)
  {
    var change := Undone(catalog, p, actor).value;
    var i := LastOwnEdit(p.history, actor);
    TargetFound(p, actor, i);
    RoomInside(p.redo, actor);
    var entry := RedoEntry(actor, p.record.document, change.document, p.history[i].id);
    assert change.redo == PushRedo(p.redo, entry);
    NewEntryIsLinked(catalog, id, p, actor, i, entry);
  }

  lemma NewEntryIsLinked(catalog: Catalog, id: Id, p: Pipeline, actor: Id, i: nat, r: RedoEntry)
    requires Consistent(catalog, id, p) && Undone(catalog, p, actor).Success? && Undoable(p, actor, i)
    requires r == RedoEntry(actor, p.record.document, Undone(catalog, p, actor).value.document, p.history[i].id)
    ensures LinkedTo(catalog, p, r, i)
  {
    assert Sound(catalog, id, RecordAt(p, |p.history| - 1).document);
    UndoReversesItsTarget(catalog, id, p, actor, i);
    forall slot | Get(r.document, slot) != Get(r.undoneDocument, slot) ensures EditChanged(p, i, slot) {
      UndoTouchesOnlyItsTarget(catalog, p, actor, i, slot);
    }
  }

  /** The redo stack after a command holds old entries, and after an undo one linked entry more. */
  lemma ChangeIsLinked(catalog: Catalog, id: Id, p: Pipeline, actor: Id, c: Command, arranged: Document)
    requires Consistent(catalog, id, p) && Linked(catalog, p) && !c.Create? && Changed(catalog, p, actor, c, arranged).Success?
    ensures forall r :: r in Changed(catalog, p, actor, c, arranged).value.redo ==> exists t :: LinkedTo(catalog, p, r, t)
  {
    if c.Undo? {
      UndoneIsLinked(catalog, id, p, actor);
    } else {
      NothingPushed(catalog, p, actor, c, arranged);
    }
  }

  lemma NothingPushed(catalog: Catalog, p: Pipeline, actor: Id, c: Command, arranged: Document)
    requires !c.Create? && !c.Undo? && Changed(catalog, p, actor, c, arranged).Success?
    ensures forall r :: r in Changed(catalog, p, actor, c, arranged).value.redo ==> r in p.redo
  {
    if c.Redo? {
      RedoneChange(catalog, p, actor, c, arranged);
      RedoTakesOne(catalog, p, actor);
    } else {
      EditKeepsRedo(catalog, p, actor, c, arranged);
    }
  }

  lemma RedoneChange(catalog: Catalog, p: Pipeline, actor: Id, c: Command, arranged: Document)
    requires c.Redo? && Changed(catalog, p, actor, c, arranged).Success?
    ensures Changed(catalog, p, actor, c, arranged) == Redone(catalog, p, actor)
  {
  }

  lemma RedoTakesOne(catalog: Catalog, p: Pipeline, actor: Id)
    requires Redone(catalog, p, actor).Success?
    ensures forall r :: r in Redone(catalog, p, actor).value.redo ==> r in p.redo
  {
    var index := LastOwnRedo(p.redo, actor);
    assert Redone(catalog, p, actor).value.redo == p.redo[..index] + p.redo[index + 1..];
    WithoutOne(p.redo, index);
  }

  lemma EditKeepsRedo(catalog: Catalog, p: Pipeline, actor: Id, c: Command, arranged: Document)
    requires !c.Create? && !c.Undo? && !c.Redo? && Changed(catalog, p, actor, c, arranged).Success?
    ensures Changed(catalog, p, actor, c, arranged).value.redo == p.redo
  {
  }

  lemma WithoutOne(redo: seq<RedoEntry>, index: nat)
    requires index < |redo|
    ensures forall r :: r in redo[..index] + redo[index + 1..] ==> r in redo
  {
  }

  lemma CommitKeepsLinks(catalog: Catalog, p: Pipeline, q: Pipeline, change: Change, kind: Kind, requestId: Id, actor: Id, now: nat)
    requires q == Committed(p, change, kind, requestId, actor, now)
    requires SameEntries(p.history, change.history) && Extends(p, q)
    requires forall r :: r in change.redo ==> exists t :: LinkedTo(catalog, p, r, t)
    ensures Linked(catalog, q)
  {
    forall r | r in q.redo ensures exists t :: LinkedTo(catalog, q, r, t) {
      var t :| LinkedTo(catalog, p, r, t);
      assert p.history[t].(undone := false) == change.history[t].(undone := false);
      LinkKept(catalog, p, q, r, t);
    }
  }

  ghost predicate AllLinked(catalog: Catalog, data: Database) {
    forall key :: key in data.pipelines ==> Linked(catalog, data.pipelines[key])
  }

  lemma WriteKeepsLinks(catalog: Catalog, stored: Option<Pipeline>, r: Request, arranged: Document, now: nat)
    requires stored.Some? ==> Consistent(catalog, PipelineId(r.command), stored.value) && Linked(catalog, stored.value)
    requires r.command.Arrange? && stored.Some? ==> Sound(catalog, PipelineId(r.command), arranged)
    requires Written(catalog, stored, r, arranged, now).Success?
    ensures Linked(catalog, Written(catalog, stored, r, arranged, now).value)
  {
    if !r.command.Create? {
      var p := stored.value;
      var change := Changed(catalog, p, r.actor, r.command, arranged).value;
      ChangeIsSound(catalog, PipelineId(r.command), p, r.actor, r.command, arranged);
      CommitKeepsConsistency(catalog, PipelineId(r.command), p, change, KindOf(r.command), r.requestId, r.actor, now);
      ChangeIsLinked(catalog, PipelineId(r.command), p, r.actor, r.command, arranged);
      CommitKeepsLinks(catalog, p, Written(catalog, stored, r, arranged, now).value, change, KindOf(r.command), r.requestId, r.actor, now);
    }
  }

  lemma ExecutionKeepsLinks(catalog: Catalog, limits: Limits, data: Database, r: Request, arranged: Document, now: nat)
    requires StoreRuns.DatabaseConsistent(catalog, data) && AllLinked(catalog, data)
    requires r.command.Arrange? && TargetKey(r) in data.pipelines ==> Sound(catalog, PipelineId(r.command), arranged)
    ensures AllLinked(catalog, Executed(catalog, limits, data, r, arranged, now).data)
  {
    var stored := Stored(data, TargetKey(r));
    if Executed(catalog, limits, data, r, arranged, now).data != data {
      WriteKeepsLinks(catalog, stored, r, arranged, now);
    }
  }

  lemma {:induction false} RunsAreLinked(catalog: Catalog, limits: Limits, steps: seq<StoreRuns.Step>)
    ensures AllLinked(catalog, StoreRuns.Run(catalog, limits, steps).data)
  {
    if steps != [] {
      var init, last := steps[..|steps| - 1], steps[|steps| - 1];
      RunsAreLinked(catalog, limits, init);
      StoreRuns.RunsAreInvariant(catalog, limits, init);
      var s := StoreRuns.Run(catalog, limits, init);
      if last.Write? && !last.r.command.Arrange? {
        ExecutionKeepsLinks(catalog, limits, s.data, last.r, StoreRuns.Nothing, last.now);
      } else if last.CommitLayout? && StoreRuns.Commits(catalog, s, last) {
        StoreRuns.ArrangedIsSound(catalog, s, last);
        ExecutionKeepsLinks(catalog, limits, s.data, last.r, last.arranged, last.now);
      }
    }
  }

  /** In any run with any number of actors, a redo leaves every slot alone that its own target edit did not change. */
  lemma RedoTouchesOnlyItsTarget(catalog: Catalog, limits: Limits, steps: seq<StoreRuns.Step>, key: Key, actor: Id, index: nat, t: nat, slot: Slot)
    requires key in StoreRuns.Run(catalog, limits, steps).data.pipelines
    requires var p := StoreRuns.Run(catalog, limits, steps).data.pipelines[key];
             Redoable(p, actor, index, t) && Redone(catalog, p, actor).Success?
    ensures var p := StoreRuns.Run(catalog, limits, steps).data.pipelines[key];
            EditChanged(p, t, slot) || Get(Redone(catalog, p, actor).value.document, slot) == Get(p.record.document, slot)
  {
    var p := StoreRuns.Run(catalog, limits, steps).data.pipelines[key];
    RunsAreLinked(catalog, limits, steps);
    RedoTargetFound(p, actor, index, t);
    var r := p.redo[index];
    MergedSlot(false, r.undoneDocument, r.document, p.record.document, slot);
    assert r in p.redo;
    var link :| LinkedTo(catalog, p, r, link);
    assert link == t;
  }

  /* ---------- exactly when undo and redo succeed ---------- */

  predicate AtRevisions(p: Pipeline, c: Command)
    requires !c.Create?
  {
    c.graphRevision == p.record.graphRevision && c.layoutRevision == p.record.layoutRevision
  }

  /** The current document took nothing over that collides with giving back what was before entry `i`. */
  ghost predicate Reversible(catalog: Catalog, p: Pipeline, i: int) {
    0 < i < |p.history| && MayCombine(catalog, RecordAt(p, i).document, RecordAt(p, i - 1).document, p.record.document)
  }

  lemma UndoneExactly(catalog: Catalog, id: Id, p: Pipeline, actor: Id)
    requires Consistent(catalog, id, p)
    ensures Undone(catalog, p, actor).Success? <==> exists i :: Undoable(p, actor, i) && Reversible(catalog, p, i)
  {
    NothingToUndoExactly(catalog, p, actor);
    forall i | Undoable(p, actor, i) ensures Reversible(catalog, p, i) <==> Undone(catalog, p, actor).Success? {
      UndoReversesItsTarget(catalog, id, p, actor, i);
    }
  }

  lemma UndoExecuted(catalog: Catalog, limits: Limits, data: Database, r: Request, now: nat)
    requires r.command.Undo? && TargetKey(r) in data.pipelines && Fresh(limits, data, r)
    ensures var p := data.pipelines[TargetKey(r)];
            var result := Executed(catalog, limits, data, r, StoreRuns.Nothing, now).result;
            if !AtRevisions(p, r.command) then result == Failure(RevisionMismatch)
            else
              && (result == Failure(NothingToUndo) <==> Undone(catalog, p, r.actor) == Failure(NothingToUndo))
              && (Permitted(result) <==> Undone(catalog, p, r.actor).Success?)
  {
  }

  /** In any run an undo at the current revisions is permitted exactly when the actor has an edit to undo and everything
      after it is independent of it. */
  lemma UndoSucceedsExactly(catalog: Catalog, limits: Limits, steps: seq<StoreRuns.Step>, r: Request, now: nat)
    requires r.command.Undo? && TargetKey(r) in StoreRuns.Run(catalog, limits, steps).data.pipelines
    requires Fresh(limits, StoreRuns.Run(catalog, limits, steps).data, r)
    ensures var data := StoreRuns.Run(catalog, limits, steps).data;
            var p := data.pipelines[TargetKey(r)];
            var result := Executed(catalog, limits, data, r, StoreRuns.Nothing, now).result;
            if !AtRevisions(p, r.command) then result == Failure(RevisionMismatch)
            else
              && (result == Failure(NothingToUndo) <==> forall i :: !Undoable(p, r.actor, i))
              && (Permitted(result) <==> exists i :: Undoable(p, r.actor, i) && Reversible(catalog, p, i))
  {
    var data := StoreRuns.Run(catalog, limits, steps).data;
    var p := data.pipelines[TargetKey(r)];
    StoreRuns.RunsAreInvariant(catalog, limits, steps);
    UndoneExactly(catalog, TargetKey(r).pipeline, p, r.actor);
    NothingToUndoExactly(catalog, p, r.actor);
    UndoExecuted(catalog, limits, data, r, now);
  }

  ghost predicate Replayable(catalog: Catalog, p: Pipeline, index: int) {
    0 <= index < |p.redo| && MayCombine(catalog, p.redo[index].undoneDocument, p.redo[index].document, p.record.document)
  }

  lemma RedoneExactly(catalog: Catalog, p: Pipeline, actor: Id)
    requires Linked(catalog, p) && Acceptable(catalog, p.record.document)
    ensures Redone(catalog, p, actor).Success? <==> exists index, t :: Redoable(p, actor, index, t) && Replayable(catalog, p, index)
  {
    NothingToRedoExactly(catalog, p, actor);
    forall index, t | Redoable(p, actor, index, t) ensures Replayable(catalog, p, index) <==> Redone(catalog, p, actor).Success? {
      assert p.redo[index] in p.redo;
      RedoReplaysItsEntry(catalog, p, actor, index, t);
    }
  }

  lemma RedoExecuted(catalog: Catalog, limits: Limits, data: Database, r: Request, now: nat)
    requires r.command.Redo? && TargetKey(r) in data.pipelines && Fresh(limits, data, r)
    ensures var p := data.pipelines[TargetKey(r)];
            var result := Executed(catalog, limits, data, r, StoreRuns.Nothing, now).result;
            if !AtRevisions(p, r.command) then result == Failure(RevisionMismatch)
            else
              && (result == Failure(NothingToRedo) <==> Redone(catalog, p, r.actor) == Failure(NothingToRedo))
              && (Permitted(result) <==> Redone(catalog, p, r.actor).Success?)
  {
  }

  /** In any run a redo at the current revisions is permitted exactly when the actor's newest entry names one own undone
      edit and can be replayed. */
  lemma RedoSucceedsExactly(catalog: Catalog, limits: Limits, steps: seq<StoreRuns.Step>, r: Request, now: nat)
    requires r.command.Redo? && TargetKey(r) in StoreRuns.Run(catalog, limits, steps).data.pipelines
    requires Fresh(limits, StoreRuns.Run(catalog, limits, steps).data, r)
    ensures var data := StoreRuns.Run(catalog, limits, steps).data;
            var p := data.pipelines[TargetKey(r)];
            var result := Executed(catalog, limits, data, r, StoreRuns.Nothing, now).result;
            if !AtRevisions(p, r.command) then result == Failure(RevisionMismatch)
            else
              && (result == Failure(NothingToRedo) <==> forall index, t :: !Redoable(p, r.actor, index, t))
              && (Permitted(result) <==> exists index, t :: Redoable(p, r.actor, index, t) && Replayable(catalog, p, index))
  {
    var data := StoreRuns.Run(catalog, limits, steps).data;
    var p := data.pipelines[TargetKey(r)];
    CurrentIsAcceptable(catalog, limits, steps, TargetKey(r));
    RunsAreLinked(catalog, limits, steps);
    RedoneExactly(catalog, p, r.actor);
    NothingToRedoExactly(catalog, p, r.actor);
    RedoExecuted(catalog, limits, data, r, now);
  }

  lemma CurrentIsAcceptable(catalog: Catalog, limits: Limits, steps: seq<StoreRuns.Step>, key: Key)
    requires key in StoreRuns.Run(catalog, limits, steps).data.pipelines
    ensures Acceptable(catalog, StoreRuns.Run(catalog, limits, steps).data.pipelines[key].record.document)
  {
    StoreRuns.RunsAreInvariant(catalog, limits, steps);
    var p := StoreRuns.Run(catalog, limits, steps).data.pipelines[key];
    assert Sound(catalog, key.pipeline, RecordAt(p, |p.history| - 1).document);
  }
}
