/** Undo and redo over whole runs (packages/pipeline-control/service.ts). */
module UndoRuns {
  import opened Wrappers
  import opened PipelineModel
  import opened Inspection
  import opened PipelineStore
  import opened Revisions
  import opened UndoRedo
  import StoreRuns

  /* ---------- a single writer, over any run ---------- */

  datatype Step = Step(command: Command, requestId: Id, arranged: Document, now: nat)

  ghost function Apply(catalog: Catalog, actor: Id, p: Pipeline, s: Step): Pipeline {
    if s.command.Create? || Changed(catalog, p, actor, s.command, s.arranged).Failure? then p
    else Committed(p, Changed(catalog, p, actor, s.command, s.arranged).value, KindOf(s.command), s.requestId, actor, s.now)
  }

  /** The pipeline after its creation and the given further commands of the same actor. */
  ghost function Run(catalog: Catalog, actor: Id, created: Document, requestId: Id, now: nat, steps: seq<Step>): Pipeline {
    if steps == [] then Created(created, requestId, actor, now)
    else Apply(catalog, actor, Run(catalog, actor, created, requestId, now, steps[..|steps| - 1]), steps[|steps| - 1])
  }

  ghost predicate SoloState(catalog: Catalog, id: Id, actor: Id, p: Pipeline) {
    exists ts :: Solo(catalog, id, actor, p, ts)
  }

  lemma CreatedIsSolo(catalog: Catalog, d: Document, requestId: Id, actor: Id, now: nat)
    requires Acceptable(catalog, d)
    ensures Solo(catalog, d.graph.id, actor, Created(d, requestId, actor, now), [])
  {
    var p := Created(d, requestId, actor, now);
    StoreRuns.CreatedIsConsistent(catalog, d, requestId, actor, now);
    LiveAppend([], p.history[0]);
    assert [] + [p.history[0]] == p.history;
    assert Live(p.history) == [0];
  }

  lemma StepKeepsSolo(catalog: Catalog, id: Id, actor: Id, p: Pipeline, s: Step)
    requires SoloState(catalog, id, actor, p)
    requires s.command.Arrange? ==> Sound(catalog, id, s.arranged)
    ensures SoloState(catalog, id, actor, Apply(catalog, actor, p, s))
  {
    var ts :| Solo(catalog, id, actor, p, ts);
    if !s.command.Create? && Changed(catalog, p, actor, s.command, s.arranged).Success? {
      if s.command.Undo? {
        StepIsUndoOrRedo(catalog, actor, p, s);
        var us := UndoRefines(catalog, id, actor, p, ts, s.requestId, s.now);
      } else if s.command.Redo? {
        StepIsUndoOrRedo(catalog, actor, p, s);
        var us := RedoRefines(catalog, id, actor, p, ts, s.requestId, s.now);
      } else {
        var us := EditStep(catalog, id, actor, p, ts, s);
      }
    }
  }

  lemma StepIsUndoOrRedo(catalog: Catalog, actor: Id, p: Pipeline, s: Step)
    requires (s.command.Undo? || s.command.Redo?) && Changed(catalog, p, actor, s.command, s.arranged).Success?
    ensures s.command.Undo? ==> Undone(catalog, p, actor).Success?
    ensures s.command.Redo? ==> Redone(catalog, p, actor).Success?
    ensures s.command.Undo? ==> Apply(catalog, actor, p, s) == Committed(p, Undone(catalog, p, actor).value, UndoKind, s.requestId, actor, s.now)
    ensures s.command.Redo? ==> Apply(catalog, actor, p, s) == Committed(p, Redone(catalog, p, actor).value, RedoKind, s.requestId, actor, s.now)
  {
  }

  lemma EditStep(catalog: Catalog, id: Id, actor: Id, p: Pipeline, ts: seq<nat>, s: Step) returns (us: seq<nat>)
    requires Solo(catalog, id, actor, p, ts)
    requires s.command.Arrange? ==> Sound(catalog, id, s.arranged)
    requires !s.command.Create? && !s.command.Undo? && !s.command.Redo?
    requires Changed(catalog, p, actor, s.command, s.arranged).Success?
    ensures Solo(catalog, id, actor, Apply(catalog, actor, p, s), us)
  {
    ChangeIsSound(catalog, id, p, actor, s.command, s.arranged);
    var d := Changed(catalog, p, actor, s.command, s.arranged).value.document;
    EditChange(catalog, p, actor, s.command, s.arranged);
    us := EditRefines(catalog, id, actor, p, ts, d, KindOf(s.command), s.requestId, s.now);
  }

  lemma EditChange(catalog: Catalog, p: Pipeline, actor: Id, c: Command, arranged: Document)
    requires !c.Create? && !c.Undo? && !c.Redo? && Changed(catalog, p, actor, c, arranged).Success?
    ensures var change := Changed(catalog, p, actor, c, arranged).value;
            change == Change(change.document, p.history, p.redo)
  {
  }

  lemma {:induction false} SoloRuns(catalog: Catalog, actor: Id, created: Document, requestId: Id, now: nat, steps: seq<Step>)
    requires Acceptable(catalog, created)
    requires forall s :: s in steps && s.command.Arrange? ==> Sound(catalog, created.graph.id, s.arranged)
    ensures SoloState(catalog, created.graph.id, actor, Run(catalog, actor, created, requestId, now, steps))
  {
    if steps == [] {
      CreatedIsSolo(catalog, created, requestId, actor, now);
    } else {
      SoloRuns(catalog, actor, created, requestId, now, steps[..|steps| - 1]);
      StepKeepsSolo(catalog, created.graph.id, actor, Run(catalog, actor, created, requestId, now, steps[..|steps| - 1]), steps[|steps| - 1]);
    }
  }

  /** In every run of a single writer an undo never meets a conflict: it fails only when no edit is left to undo. */
  lemma UndoNeverConflicts(catalog: Catalog, actor: Id, created: Document, requestId: Id, now: nat, steps: seq<Step>)
    requires Acceptable(catalog, created)
    requires forall s :: s in steps && s.command.Arrange? ==> Sound(catalog, created.graph.id, s.arranged)
    ensures var p := Run(catalog, actor, created, requestId, now, steps);
            Undone(catalog, p, actor).Success? || (Undone(catalog, p, actor) == Failure(NothingToUndo) && |Live(p.history)| == 1)
  {
    SoloRuns(catalog, actor, created, requestId, now, steps);
    var p := Run(catalog, actor, created, requestId, now, steps);
    var ts :| Solo(catalog, created.graph.id, actor, p, ts);
    var us := UndoRefines(catalog, created.graph.id, actor, p, ts, requestId, now);
  }

  /* ---------- several undos, several redos ---------- */

  function EditorUndos(e: Editor, k: nat): (r: Editor)
    requires k <= |e.past|
    ensures |r.past| == |e.past| - k
  {
    if k == 0 then e else EditorUndo(EditorUndos(e, k - 1))
  }

  function EditorRedos(e: Editor, k: nat): (r: Editor)
    requires k <= |e.future|
    ensures |r.future| == |e.future| - k
  {
    if k == 0 then e else EditorRedo(EditorRedos(e, k - 1))
  }

  lemma {:induction false} UndosShape(e: Editor, k: nat)
    requires k <= |e.past| && k <= REDO_LIMIT
    ensures var r := EditorUndos(e, k);
            var all := e.past + [e.present];
            && r.past == all[..|all| - 1 - k] && r.present == all[|all| - 1 - k]
            && k <= |r.future| && r.future[..k] == all[|all| - k..]
  {
    if k > 0 {
      UndosShape(e, k - 1);
      var all := e.past + [e.present];
      var before, r := EditorUndos(e, k - 1), EditorUndos(e, k);
      assert all[|all| - k..] == [all[|all| - k]] + all[|all| - k + 1..];
      assert r.future[..k] == [before.present] + before.future[..k - 1];
    }
  }

  lemma {:induction false} RedosShape(e: Editor, k: nat)
    requires k <= |e.future|
    ensures var r := EditorRedos(e, k);
            r.past + [r.present] == e.past + [e.present] + e.future[..k] && r.future == e.future[k..]
  {
    if k > 0 {
      RedosShape(e, k - 1);
      assert e.future[..k] == e.future[..k - 1] + [e.future[k - 1]];
    }
  }

  /** Up to fifty undos followed by as many redos bring the editor back. */
  lemma EditorRoundTrip(e: Editor, k: nat)
    requires k <= |e.past| && k <= REDO_LIMIT
    ensures k <= |EditorUndos(e, k).future|
    ensures var r := EditorRedos(EditorUndos(e, k), k); r.past == e.past && r.present == e.present
  {
    UndosShape(e, k);
    var u := EditorUndos(e, k);
    RedosShape(u, k);
    var r := EditorRedos(u, k);
    var all := e.past + [e.present];
    assert u.past + [u.present] + u.future[..k] == all;
    assert r.past == (r.past + [r.present])[..|r.past|] && e.past == all[..|e.past|];
    assert |r.past| == |e.past|;
  }

  function IdsOf(h: seq<Entry>): seq<Id> {
    seq(|h|, i requires 0 <= i < |h| => h[i].id)
  }

  ghost predicate DistinctIds(ids: seq<Id>) {
    forall i, j :: 0 <= i < j < |ids| ==> ids[i] != ids[j]
  }

  ghost function UndoOnce(catalog: Catalog, p: Pipeline, actor: Id, requestId: Id, now: nat): Option<Pipeline> {
    var change := Undone(catalog, p, actor);
    if change.Failure? then None else Some(Committed(p, change.value, UndoKind, requestId, actor, now))
  }

  ghost function RedoOnce(catalog: Catalog, p: Pipeline, actor: Id, requestId: Id, now: nat): Option<Pipeline> {
    var change := Redone(catalog, p, actor);
    if change.Failure? then None else Some(Committed(p, change.value, RedoKind, requestId, actor, now))
  }

  /** Undo requests with the given ids, one after the other; None if one is refused. */
  ghost function Undos(catalog: Catalog, p: Pipeline, actor: Id, ids: seq<Id>, now: nat): Option<Pipeline> {
    if ids == [] then Some(p)
    else
      var q := Undos(catalog, p, actor, ids[..|ids| - 1], now);
      if q.None? then None else UndoOnce(catalog, q.value, actor, ids[|ids| - 1], now)
  }

  ghost function Redos(catalog: Catalog, p: Pipeline, actor: Id, ids: seq<Id>, now: nat): Option<Pipeline> {
    if ids == [] then Some(p)
    else
      var q := Redos(catalog, p, actor, ids[..|ids| - 1], now);
      if q.None? then None else RedoOnce(catalog, q.value, actor, ids[|ids| - 1], now)
  }

  /** The history ids followed by the given unused ones are pairwise distinct. */
  ghost predicate Unused(h: seq<Entry>, ids: seq<Id>) {
    DistinctIds(IdsOf(h) + ids)
  }

  lemma CommitUsesOneId(p: Pipeline, change: Change, kind: Kind, actor: Id, now: nat, ids: seq<Id>)
    requires ids != [] && Unused(p.history, ids) && SameEntries(p.history, change.history)
    ensures Unused(Committed(p, change, kind, ids[0], actor, now).history, ids[1..])
  {
    var q := Committed(p, change, kind, ids[0], actor, now);
    forall i | 0 <= i < |p.history| ensures q.history[i].id == p.history[i].id {
      assert p.history[i].(undone := false) == change.history[i].(undone := false);
    }
    var all, left := IdsOf(p.history) + ids, IdsOf(q.history) + ids[1..];
    var skip := |all| - |left|;
    forall i, j | 0 <= i < j < |left| ensures left[i] != left[j] {
      var m := if i < |p.history| then i else i + skip;
      var n := if j < |p.history| then j else j + skip;
      assert left[i] == all[m] && left[j] == all[n];
    }
  }

  lemma UnusedMeansUnique(h: seq<Entry>, ids: seq<Id>, t: nat)
    requires Unused(h, ids) && t < |h|
    ensures UniqueEntry(h, h[t].id)
  {
    var all := IdsOf(h) + ids;
    forall j | 0 <= j < |h| && h[j].id == h[t].id ensures j == t {
      assert all[j] == h[j].id && all[t] == h[t].id;
    }
    assert IsOnly(h, h[t].id, t);
  }

  /** A single-writer pipeline standing for the editor `e`, with the given ids unused. */
  ghost predicate Stands(catalog: Catalog, id: Id, actor: Id, p: Pipeline, e: Editor, ids: seq<Id>) {
    SoloState(catalog, id, actor, p) && View(p) == e && Unused(p.history, ids)
  }

  lemma UndoUsesOneId(catalog: Catalog, p: Pipeline, actor: Id, requestId: Id, rest: seq<Id>, now: nat)
    requires UndoOnce(catalog, p, actor, requestId, now).Some? && Unused(p.history, [requestId] + rest)
    ensures Unused(UndoOnce(catalog, p, actor, requestId, now).value.history, rest)
  {
    CommitUsesOneId(p, Undone(catalog, p, actor).value, UndoKind, actor, now, [requestId] + rest);
    assert ([requestId] + rest)[1..] == rest;
  }

  lemma RedoUsesOneId(catalog: Catalog, p: Pipeline, actor: Id, requestId: Id, rest: seq<Id>, now: nat)
    requires RedoOnce(catalog, p, actor, requestId, now).Some? && Unused(p.history, [requestId] + rest)
    ensures Unused(RedoOnce(catalog, p, actor, requestId, now).value.history, rest)
  {
    CommitUsesOneId(p, Redone(catalog, p, actor).value, RedoKind, actor, now, [requestId] + rest);
    assert ([requestId] + rest)[1..] == rest;
  }

  lemma UndoOnceRefines(catalog: Catalog, id: Id, actor: Id, p: Pipeline, ts: seq<nat>, requestId: Id, now: nat)
    requires Solo(catalog, id, actor, p, ts) && View(p).past != []
    ensures UndoOnce(catalog, p, actor, requestId, now).Some?
    ensures var q := UndoOnce(catalog, p, actor, requestId, now).value;
            SoloState(catalog, id, actor, q) && View(q) == EditorUndo(View(p))
  {
    var us := UndoRefines(catalog, id, actor, p, ts, requestId, now);
  }

  lemma OneUndo(catalog: Catalog, id: Id, actor: Id, p: Pipeline, e: Editor, requestId: Id, rest: seq<Id>, now: nat)
    requires Stands(catalog, id, actor, p, e, [requestId] + rest) && e.past != []
    ensures UndoOnce(catalog, p, actor, requestId, now).Some?
    ensures Stands(catalog, id, actor, UndoOnce(catalog, p, actor, requestId, now).value, EditorUndo(e), rest)
  {
    var ts :| Solo(catalog, id, actor, p, ts);
    UndoOnceRefines(catalog, id, actor, p, ts, requestId, now);
    UndoUsesOneId(catalog, p, actor, requestId, rest, now);
  }

  lemma TargetIsUnique(p: Pipeline, ts: seq<nat>, ids: seq<Id>)
    requires RedoChain(p, ts) && ts != [] && Unused(p.history, ids)
    ensures UniqueEntry(p.history, p.redo[|p.redo| - 1].target)
  {
    var last := |ts| - 1;
    assert Replays(p, p.redo[last], ts[last]);
    UnusedMeansUnique(p.history, ids, ts[last]);
  }

  lemma RedoOnceRefines(catalog: Catalog, id: Id, actor: Id, p: Pipeline, ts: seq<nat>, requestId: Id, now: nat)
    requires Solo(catalog, id, actor, p, ts) && p.redo != [] && UniqueEntry(p.history, p.redo[|p.redo| - 1].target)
    ensures RedoOnce(catalog, p, actor, requestId, now).Some?
    ensures var q := RedoOnce(catalog, p, actor, requestId, now).value;
            SoloState(catalog, id, actor, q) && View(q) == EditorRedo(View(p))
  {
    var us := RedoRefines(catalog, id, actor, p, ts, requestId, now);
  }

  lemma OneRedo(catalog: Catalog, id: Id, actor: Id, p: Pipeline, e: Editor, requestId: Id, rest: seq<Id>, now: nat)
    requires Stands(catalog, id, actor, p, e, [requestId] + rest) && e.future != []
    ensures RedoOnce(catalog, p, actor, requestId, now).Some?
    ensures Stands(catalog, id, actor, RedoOnce(catalog, p, actor, requestId, now).value, EditorRedo(e), rest)
  {
    var ts :| Solo(catalog, id, actor, p, ts);
    TargetIsUnique(p, ts, [requestId] + rest);
    RedoOnceRefines(catalog, id, actor, p, ts, requestId, now);
    RedoUsesOneId(catalog, p, actor, requestId, rest, now);
  }

  lemma {:induction false} UndosRefine(catalog: Catalog, id: Id, actor: Id, p: Pipeline, e: Editor, ids: seq<Id>, rest: seq<Id>, now: nat)
    requires Stands(catalog, id, actor, p, e, ids + rest) && |ids| <= |e.past|
    ensures Undos(catalog, p, actor, ids, now).Some?
    ensures Stands(catalog, id, actor, Undos(catalog, p, actor, ids, now).value, EditorUndos(e, |ids|), rest)
    decreases |ids|
  {
    if ids == [] {
      assert ids + rest == rest;
    } else {
      var init, last := ids[..|ids| - 1], ids[|ids| - 1];
      assert init + ([last] + rest) == ids + rest;
      UndosRefine(catalog, id, actor, p, e, init, [last] + rest, now);
      OneUndo(catalog, id, actor, Undos(catalog, p, actor, init, now).value, EditorUndos(e, |init|), last, rest, now);
    }
  }

  lemma {:induction false} RedosRefine(catalog: Catalog, id: Id, actor: Id, p: Pipeline, e: Editor, ids: seq<Id>, rest: seq<Id>, now: nat)
    requires Stands(catalog, id, actor, p, e, ids + rest) && |ids| <= |e.future|
    ensures Redos(catalog, p, actor, ids, now).Some?
    ensures Stands(catalog, id, actor, Redos(catalog, p, actor, ids, now).value, EditorRedos(e, |ids|), rest)
    decreases |ids|
  {
    if ids == [] {
      assert ids + rest == rest;
    } else {
      var init, last := ids[..|ids| - 1], ids[|ids| - 1];
      assert init + ([last] + rest) == ids + rest;
      RedosRefine(catalog, id, actor, p, e, init, [last] + rest, now);
      OneRedo(catalog, id, actor, Redos(catalog, p, actor, init, now).value, EditorRedos(e, |init|), last, rest, now);
    }
  }

  /** With one writer and distinct request ids, k undos restore the document k edits back, and k redos, k at most fifty,
      then restore the document they started from. */
  lemma UndoRedoRoundTrip(catalog: Catalog, id: Id, actor: Id, p: Pipeline, undoIds: seq<Id>, redoIds: seq<Id>, now: nat)
    requires SoloState(catalog, id, actor, p)
    requires Unused(p.history, undoIds + redoIds)
    requires |undoIds| == |redoIds| <= REDO_LIMIT && |undoIds| < |Live(p.history)|
    ensures Undos(catalog, p, actor, undoIds, now).Some?
    ensures var q := Undos(catalog, p, actor, undoIds, now).value;
            && Redos(catalog, q, actor, redoIds, now).Some?
            && var live, k := Live(p.history), |undoIds|;
               && Now(q) == State(p, live[|live| - 1 - k])
               && Now(Redos(catalog, q, actor, redoIds, now).value) == Now(p)
  {
    var k := |undoIds|;
    var e := View(p);
    UndosThenRedos(catalog, id, actor, p, e, undoIds, redoIds, now);
    UndosShape(e, k);
    ViewElement(p, |Live(p.history)| - 1 - k);
  }

  lemma UndosThenRedos(catalog: Catalog, id: Id, actor: Id, p: Pipeline, e: Editor, undoIds: seq<Id>, redoIds: seq<Id>, now: nat)
    requires Stands(catalog, id, actor, p, e, undoIds + redoIds)
    requires |undoIds| == |redoIds| <= REDO_LIMIT && |undoIds| <= |e.past|
    ensures Undos(catalog, p, actor, undoIds, now).Some?
    ensures Now(Undos(catalog, p, actor, undoIds, now).value) == EditorUndos(e, |undoIds|).present
    ensures Redos(catalog, Undos(catalog, p, actor, undoIds, now).value, actor, redoIds, now).Some?
    ensures Now(Redos(catalog, Undos(catalog, p, actor, undoIds, now).value, actor, redoIds, now).value) == e.present
  {
    EditorRoundTrip(e, |undoIds|);
    UndosRefine(catalog, id, actor, p, e, undoIds, redoIds, now);
    assert redoIds + [] == redoIds;
    RedosRefine(catalog, id, actor, Undos(catalog, p, actor, undoIds, now).value, EditorUndos(e, |undoIds|), redoIds, [], now);
  }

  lemma ViewElement(p: Pipeline, m: nat)
    requires LiveChain(p, Live(p.history)) && m < |Live(p.history)|
    ensures (View(p).past + [View(p).present])[m] == State(p, Live(p.history)[m])
  {
  }

  /** Two effective edits sent under one request id: the undo works, its redo is refused. */
  lemma RepeatedRequestIdBlocksRedo(catalog: Catalog, id: Id, actor: Id, p: Pipeline, d1: Document, d2: Document, requestId: Id, undoId: Id, now: nat)
    requires SoloState(catalog, id, actor, p)
    requires Sound(catalog, id, d1) && Sound(catalog, id, d2) && d1 != p.record.document && d2 != d1
    ensures var p1 := Committed(p, Change(d1, p.history, p.redo), PatchKind, requestId, actor, now);
            var p2 := Committed(p1, Change(d2, p1.history, p1.redo), PatchKind, requestId, actor, now);
            && Undone(catalog, p2, actor).Success?
            && Redone(catalog, Committed(p2, Undone(catalog, p2, actor).value, UndoKind, undoId, actor, now), actor) == Failure(NothingToRedo)
  {
    var ts :| Solo(catalog, id, actor, p, ts);
    var p1 := Committed(p, Change(d1, p.history, p.redo), PatchKind, requestId, actor, now);
    var us := EditRefines(catalog, id, actor, p, ts, d1, PatchKind, requestId, now);
    var p2 := Committed(p1, Change(d2, p1.history, p1.redo), PatchKind, requestId, actor, now);
    var vs := EditRefines(catalog, id, actor, p1, us, d2, PatchKind, requestId, now);
    assert View(p2).past != [];
    RedoOfRepeatedId(catalog, id, actor, p2, vs, undoId, |p.history|, now);
  }

  lemma RedoOfRepeatedId(catalog: Catalog, id: Id, actor: Id, p: Pipeline, ts: seq<nat>, undoId: Id, other: nat, now: nat)
    requires Solo(catalog, id, actor, p, ts) && View(p).past != []
    requires other < |p.history| && Newest(p) != other && 0 <= Newest(p) < |p.history| && p.history[other].id == p.history[Newest(p)].id
    ensures Undone(catalog, p, actor).Success?
    ensures Redone(catalog, Committed(p, Undone(catalog, p, actor).value, UndoKind, undoId, actor, now), actor) == Failure(NothingToRedo)
  {
    var change := UndoSucceeds(catalog, id, actor, p, ts);
    var us := UndoRefines(catalog, id, actor, p, ts, undoId, now);
    var q := Committed(p, change, UndoKind, undoId, actor, now);
    CommittedFlag(p, change, UndoKind, undoId, actor, now, Newest(p), true);
    FlaggedEntry(p, q, Newest(p), true, actor, Newest(p));
    FlaggedEntry(p, q, Newest(p), true, actor, other);
    assert q.redo[|q.redo| - 1].target == q.history[Newest(p)].id == q.history[other].id;
    assert !UniqueEntry(q.history, q.redo[|q.redo| - 1].target);
    var vs := RedoRefines(catalog, id, actor, q, us, undoId, now);
  }
}
