/** What revision numbers mean: over any run of the store, a revision number names one content
    (packages/pipeline-control/service.ts). */
module Revisions {
  import opened Wrappers
  import opened PipelineModel
  import opened Inspection
  import opened PipelineStore

  /** The record as history entry `i` left it; the last one is the current record. */
  function RecordAt(p: Pipeline, i: nat): Record
    requires i < |p.history|
  {
    if i + 1 < |p.history| && p.history[i + 1].before.Some? then p.history[i + 1].before.value else p.record
  }

  ghost predicate RevisionStep(a: Record, b: Record) {
    && a.document != b.document
    && b.graphRevision == a.graphRevision + (if a.document.graph != b.document.graph then 1 else 0)
    && b.layoutRevision == a.layoutRevision + (if a.document.layout != b.document.layout then 1 else 0)
  }

  ghost predicate Sound(catalog: Catalog, id: Id, d: Document) {
    Acceptable(catalog, d) && d.graph.id == id
  }

  /** The invariant of one stored pipeline: history links records whose revisions advance with their contents. */
  ghost predicate Consistent(catalog: Catalog, id: Id, p: Pipeline) {
    && |p.history| > 0 && p.history[0].before.None?
    && (forall i :: 0 < i < |p.history| ==> p.history[i].before.Some?)
    && RecordAt(p, 0).graphRevision == 1 && RecordAt(p, 0).layoutRevision == 1
    && (forall i :: 0 <= i < |p.history| - 1 ==> RevisionStep(RecordAt(p, i), RecordAt(p, i + 1)))
    && (forall i :: 0 <= i < |p.history| ==> Sound(catalog, id, RecordAt(p, i).document))
  }

  /** Equal up to the undone flags. */
  ghost predicate SameEntries(h: seq<Entry>, k: seq<Entry>) {
    |h| == |k| && forall i :: 0 <= i < |h| ==> h[i].(undone := false) == k[i].(undone := false)
  }

  /* ---------- every command keeps the invariant ---------- */

  lemma {:induction false} EditsKeepId(d: Document, edits: seq<Edit>)
    requires ApplyEdits(d, edits).Success?
    ensures ApplyEdits(d, edits).value.graph.id == d.graph.id
    decreases |edits|
  {
    if edits != [] {
      EditsKeepId(ApplyEdit(d, edits[0]).value, edits[1..]);
    }
  }

  lemma ChangeIsSound(catalog: Catalog, id: Id, p: Pipeline, actor: Id, c: Command, arranged: Document)
    requires Consistent(catalog, id, p) && !c.Create?
    requires c.Arrange? ==> Sound(catalog, id, arranged)
    requires Changed(catalog, p, actor, c, arranged).Success?
    ensures var change := Changed(catalog, p, actor, c, arranged).value;
            Sound(catalog, id, change.document) && SameEntries(p.history, change.history)
  {
    assert Sound(catalog, id, RecordAt(p, |p.history| - 1).document);
    if c.Patch? {
      EditsKeepId(p.record.document, c.edits);
    }
  }

  lemma CommitKeepsConsistency(catalog: Catalog, id: Id, p: Pipeline, change: Change, kind: Kind, requestId: Id, actor: Id, now: nat)
    requires Consistent(catalog, id, p)
    requires Sound(catalog, id, change.document) && SameEntries(p.history, change.history)
    ensures var q := Committed(p, change, kind, requestId, actor, now);
            Consistent(catalog, id, q) && Extends(p, q)
  {
    var q := Committed(p, change, kind, requestId, actor, now);
    var n := |p.history|;
    forall i | 0 <= i < n
      ensures q.history[i].before == p.history[i].before
    {
      assert p.history[i].(undone := false) == change.history[i].(undone := false);
    }
    forall i | 0 <= i < n
      ensures SameContent(RecordAt(q, i), RecordAt(p, i))
    {
    }
    forall i | 0 <= i < |q.history| - 1 ensures RevisionStep(RecordAt(q, i), RecordAt(q, i + 1)) {
      if i < n - 1 {
        assert RevisionStep(RecordAt(p, i), RecordAt(p, i + 1));
        assert SameContent(RecordAt(q, i), RecordAt(p, i)) && SameContent(RecordAt(q, i + 1), RecordAt(p, i + 1));
      }
    }
    forall i | 0 <= i < |q.history| ensures Sound(catalog, id, RecordAt(q, i).document) {
      if i < n {
        assert Sound(catalog, id, RecordAt(p, i).document);
        assert SameContent(RecordAt(q, i), RecordAt(p, i));
      }
    }
  }

  ghost predicate SameContent(a: Record, b: Record) {
    a.document == b.document && a.graphRevision == b.graphRevision && a.layoutRevision == b.layoutRevision
  }

  /** Records are never lost: what was once stored stays in the history. */
  ghost predicate Extends(p: Pipeline, q: Pipeline) {
    |p.history| <= |q.history| && forall i :: 0 <= i < |p.history| ==> SameContent(RecordAt(q, i), RecordAt(p, i))
  }

  /* ---------- what the invariant says ---------- */

  /** Revision numbers only grow, and equal numbers mean equal content. */
  lemma {:induction false} RevisionsNameContent(catalog: Catalog, id: Id, p: Pipeline, i: nat, j: nat)
    requires Consistent(catalog, id, p) && i <= j < |p.history|
    ensures RecordAt(p, i).graphRevision <= RecordAt(p, j).graphRevision
    ensures RecordAt(p, i).layoutRevision <= RecordAt(p, j).layoutRevision
    ensures RecordAt(p, i).graphRevision == RecordAt(p, j).graphRevision ==> RecordAt(p, i).document.graph == RecordAt(p, j).document.graph
    ensures RecordAt(p, i).layoutRevision == RecordAt(p, j).layoutRevision ==> RecordAt(p, i).document.layout == RecordAt(p, j).document.layout
    decreases j - i
  {
    if i < j {
      RevisionsNameContent(catalog, id, p, i, j - 1);
      assert RevisionStep(RecordAt(p, j - 1), RecordAt(p, j - 1 + 1));
    }
  }

  /** Any two history baselines with one graph revision hold one graph; with one revision pair, one document. */
  lemma BaselinesAgree(catalog: Catalog, id: Id, p: Pipeline, i: nat, j: nat)
    requires Consistent(catalog, id, p)
    requires i < |p.history| && j < |p.history| && p.history[i].before.Some? && p.history[j].before.Some?
    ensures var a, b := p.history[i].before.value, p.history[j].before.value;
            && (a.graphRevision == b.graphRevision ==> a.document.graph == b.document.graph)
            && (a.graphRevision == b.graphRevision && a.layoutRevision == b.layoutRevision ==> a.document == b.document)
  {
    assert RecordAt(p, i - 1) == p.history[i].before.value && RecordAt(p, j - 1) == p.history[j].before.value;
    if i <= j {
      RevisionsNameContent(catalog, id, p, i - 1, j - 1);
    } else {
      RevisionsNameContent(catalog, id, p, j - 1, i - 1);
    }
  }

  /** Some record carries each graph revision up to that of record `j`. */
  lemma {:induction false} RevisionWasStored(catalog: Catalog, id: Id, p: Pipeline, revision: nat, j: nat) returns (i: nat)
    requires Consistent(catalog, id, p) && j < |p.history|
    requires 1 <= revision <= RecordAt(p, j).graphRevision
    ensures i <= j && RecordAt(p, i).graphRevision == revision
    ensures forall k :: i < k <= j ==> RecordAt(p, k).graphRevision != revision
    decreases j
  {
    if RecordAt(p, j).graphRevision == revision {
      i := j;
    } else {
      assert RevisionStep(RecordAt(p, j - 1), RecordAt(p, j - 1 + 1));
      i := RevisionWasStored(catalog, id, p, revision, j - 1);
    }
  }

  lemma {:induction false} BaselineIsFound(history: seq<Entry>, i: nat, revision: nat)
    requires i < |history| && history[i].before.Some? && history[i].before.value.graphRevision == revision
    ensures Baseline(history, revision).Some? && Baseline(history, revision).value.graphRevision == revision
    ensures exists k :: 0 <= k < |history| && history[k].before == Baseline(history, revision)
  {
    var last := |history| - 1;
    if history[last].before.Some? && history[last].before.value.graphRevision == revision {
      assert history[last].before == Baseline(history, revision);
    } else {
      BaselineIsFound(history[..last], i, revision);
      var k :| 0 <= k < |history[..last]| && history[..last][k].before == Baseline(history[..last], revision);
      assert history[k].before == Baseline(history, revision);
    }
  }

  /** A merge baseline exists for every older graph revision, and it holds the one graph that revision ever named. */
  lemma EveryOlderRevisionHasItsBaseline(catalog: Catalog, id: Id, p: Pipeline, revision: nat)
    requires Consistent(catalog, id, p) && 1 <= revision < p.record.graphRevision
    ensures Baseline(p.history, revision).Some?
    ensures forall i :: 0 <= i < |p.history| && RecordAt(p, i).graphRevision == revision ==>
              RecordAt(p, i).document.graph == Baseline(p.history, revision).value.document.graph
  {
    var last := |p.history| - 1;
    var s := RevisionWasStored(catalog, id, p, revision, last);
    assert p.history[s + 1].before == Some(RecordAt(p, s));
    BaselineIsFound(p.history, s + 1, revision);
    var k :| 0 <= k < |p.history| && p.history[k].before == Baseline(p.history, revision);
    assert k > 0 && RecordAt(p, k - 1) == Baseline(p.history, revision).value;
    forall i | 0 <= i < |p.history| && RecordAt(p, i).graphRevision == revision
      ensures RecordAt(p, i).document.graph == Baseline(p.history, revision).value.document.graph
    {
      if i <= k - 1 {
        RevisionsNameContent(catalog, id, p, i, k - 1);
      } else {
        RevisionsNameContent(catalog, id, p, k - 1, i);
      }
    }
  }

  /** A revision number beyond the current one, or zero, has no baseline: the save is refused, not merged. */
  lemma OnlyOlderRevisionsHaveABaseline(catalog: Catalog, id: Id, p: Pipeline, revision: nat)
    requires Consistent(catalog, id, p) && revision != p.record.graphRevision
    ensures Baseline(p.history, revision).Some? <==> 1 <= revision < p.record.graphRevision
  {
    if 1 <= revision < p.record.graphRevision {
      EveryOlderRevisionHasItsBaseline(catalog, id, p, revision);
    } else if Baseline(p.history, revision).Some? {
      var k := BaselineEntry(p.history, revision);
      assert k > 0 && RecordAt(p, k - 1) == p.history[k].before.value;
      RevisionsNameContent(catalog, id, p, 0, k - 1);
      RevisionsNameContent(catalog, id, p, k - 1, |p.history| - 1);
      assert false;
    }
  }

  lemma {:induction false} BaselineEntry(history: seq<Entry>, revision: nat) returns (k: nat)
    requires Baseline(history, revision).Some?
    ensures k < |history| && history[k].before.Some? && history[k].before.value.graphRevision == revision
  {
    k := |history| - 1;
    if !(history[k].before.Some? && history[k].before.value.graphRevision == revision) {
      k := BaselineEntry(history[..k], revision);
    }
  }
}
