/** Rebasing a client's undo stack onto a remote document (apps/web/src/pipelines/history.ts). */
module History {
  import opened Wrappers
  import opened PipelineModel
  import opened Collaboration
  import opened Documents

  /** The newest snapshot is merged first; the first conflict ends the kept part. */
  ghost function Rebased(stack: seq<Document>, base: Document, current: Document): seq<Document> {
    if stack == [] then []
    else
      var newest := stack[|stack| - 1];
      var merged := MergeDocuments(true, base, newest, current);
      if merged.None? then []
      else Rebased(stack[..|stack| - 1], newest, merged.value) + [merged.value]
  }

  method MergeSnapshot(base: Document, snapshot: Document, current: Document) returns (r: Option<Document>)
    ensures r == MergeDocuments(true, base, snapshot, current)
  {
    var graph := MergeIndependentGraph(base.graph, snapshot.graph, current.graph);
    if graph.Failure? {
      return None;
    }
    var presentation := MergePresentation(true, base.layout, snapshot.layout, current.layout);
    r := if presentation.Some? then Some(Document(graph.value, presentation.value)) else None;
  }

  /** One more snapshot from the end of the stack. */
  lemma RebasedOn(stack: seq<Document>, i: nat, base: Document, current: Document, result: seq<Document>)
    requires i < |stack|
    ensures var merged := MergeDocuments(true, base, stack[i], current);
            Rebased(stack[..i + 1], base, current) + result
            == if merged.None? then result else Rebased(stack[..i], stack[i], merged.value) + ([merged.value] + result)
  {
    assert stack[..i + 1][..i] == stack[..i];
  }

  method RebaseStack(stack: seq<Document>, before: Document, remote: Document) returns (result: seq<Document>)
    ensures result == Rebased(stack, before, remote)
  {
    ghost var all := Rebased(stack, before, remote);
    result := [];
    var base, current, i := before, remote, |stack|;
    assert stack[..|stack|] == stack;
    while i > 0
      invariant 0 <= i <= |stack|
      invariant all == Rebased(stack[..i], base, current) + result
    {
      i := i - 1;
      RebasedOn(stack, i, base, current, result);
      var rebased := MergeSnapshot(base, stack[i], current);
      if rebased.None? {
        return;
      }
      result := [rebased.value] + result;
      base, current := stack[i], rebased.value;
    }
  }

  method RebaseHistory(stack: seq<Document>, before: Document, remote: Document) returns (result: seq<Document>)
    ensures result == if before.graph.id != remote.graph.id then [] else Rebased(stack, before, remote)
  {
    if before.graph.id != remote.graph.id {
      return [];
    }
    result := RebaseStack(stack, before, remote);
  }

  lemma {:induction false} RebasedLength(stack: seq<Document>, base: Document, current: Document)
    ensures |Rebased(stack, base, current)| <= |stack|
  {
    if stack != [] {
      var newest := stack[|stack| - 1];
      var merged := MergeDocuments(true, base, newest, current);
      if merged.Some? {
        RebasedLength(stack[..|stack| - 1], newest, merged.value);
      }
    }
  }

  /** The k-th kept entry was rebased from the k-th snapshot of the newest end of the stack. */
  ghost predicate LikeSnapshot(stack: seq<Document>, kept: seq<Document>, k: nat, slot: Slot)
    requires k < |kept| <= |stack|
  {
    Get(kept[k], slot) == Get(stack[|stack| - |kept| + k], slot)
  }

  ghost predicate SnapshotHas(stack: seq<Document>, kept: seq<Document>, k: nat, slot: Slot, value: Content)
    requires k < |kept| <= |stack|
  {
    Get(stack[|stack| - |kept| + k], slot) == value
  }

  lemma Shift(stack: seq<Document>, rest: seq<Document>, merged: Document, slot: Slot, value: Content)
    requires |rest| < |stack|
    ensures var older, kept := stack[..|stack| - 1], rest + [merged];
            && (LikeSnapshot(stack, kept, |rest|, slot) <==> Get(merged, slot) == Get(stack[|stack| - 1], slot))
            && (SnapshotHas(stack, kept, |rest|, slot, value) <==> Get(stack[|stack| - 1], slot) == value)
            && (forall k :: 0 <= k < |rest| ==> (LikeSnapshot(stack, kept, k, slot) <==> LikeSnapshot(older, rest, k, slot)))
            && (forall k :: 0 <= k < |rest| ==> (SnapshotHas(stack, kept, k, slot, value) <==> SnapshotHas(older, rest, k, slot, value)))
  {
  }

  lemma RebasedStep(stack: seq<Document>, base: Document, current: Document, merged: Document, slot: Slot)
    requires stack != [] && MergeDocuments(true, base, stack[|stack| - 1], current) == Some(merged)
    ensures var rest := Rebased(stack[..|stack| - 1], stack[|stack| - 1], merged);
            |rest| < |stack| && Rebased(stack, base, current) == rest + [merged]
    ensures SlotMerged(base, stack[|stack| - 1], current, merged, slot)
  {
    MergedSlot(true, base, stack[|stack| - 1], current, slot);
    RebasedLength(stack[..|stack| - 1], stack[|stack| - 1], merged);
  }

  lemma OneMoreLikeItsSnapshot(stack: seq<Document>, rest: seq<Document>, merged: Document, slot: Slot)
    requires |rest| < |stack| && Get(merged, slot) == Get(stack[|stack| - 1], slot)
    requires AllLikeSnapshots(stack[..|stack| - 1], rest, slot)
    ensures AllLikeSnapshots(stack, rest + [merged], slot)
  {
    Shift(stack, rest, merged, slot, Get(merged, slot));
  }

  ghost predicate AllLikeSnapshots(stack: seq<Document>, kept: seq<Document>, slot: Slot) {
    |kept| <= |stack| && forall k :: 0 <= k < |kept| ==> LikeSnapshot(stack, kept, k, slot)
  }

  /** A slot the remote side left alone: every kept entry has its own snapshot's value. */
  lemma {:induction false} LocalSlotsRestored(stack: seq<Document>, base: Document, current: Document, slot: Slot)
    requires Get(current, slot) == Get(base, slot)
    ensures AllLikeSnapshots(stack, Rebased(stack, base, current), slot)
  {
    if stack != [] {
      var newest := stack[|stack| - 1];
      var m := MergeDocuments(true, base, newest, current);
      if m.Some? {
        RebasedStep(stack, base, current, m.value, slot);
        LocalSlotsRestored(stack[..|stack| - 1], newest, m.value, slot);
        OneMoreLikeItsSnapshot(stack, Rebased(stack[..|stack| - 1], newest, m.value), m.value, slot);
      }
    }
  }

  /** A remote value that is neither the shared one nor any kept snapshot's survives in every kept entry. */
  lemma {:induction false} RemoteSlotsSurvive(stack: seq<Document>, base: Document, current: Document, slot: Slot)
    requires Get(current, slot) != Get(base, slot)
    requires |Rebased(stack, base, current)| <= |stack|
    requires var kept := Rebased(stack, base, current);
             forall k :: 0 <= k < |kept| ==> !SnapshotHas(stack, kept, k, slot, Get(current, slot))
    ensures forall d :: d in Rebased(stack, base, current) ==> Get(d, slot) == Get(current, slot)
  {
    if stack != [] {
      var newest := stack[|stack| - 1];
      var m := MergeDocuments(true, base, newest, current);
      if m.Some? {
        RebasedStep(stack, base, current, m.value, slot);
        var rest, kept := Rebased(stack[..|stack| - 1], newest, m.value), Rebased(stack, base, current);
        Shift(stack, rest, m.value, slot, Get(current, slot));
        assert !SnapshotHas(stack, kept, |rest|, slot, Get(current, slot));
        RemoteSlotsSurvive(stack[..|stack| - 1], newest, m.value, slot);
      }
    }
  }

  /** Nothing is dropped when the remote document is the one the stack was built on. */
  lemma {:induction false} NothingDropped(stack: seq<Document>, base: Document, current: Document)
    requires Same(base, current)
    requires forall d :: d in stack ==> d.graph.id == base.graph.id
    ensures var kept := Rebased(stack, base, current);
            |kept| == |stack| && forall k :: 0 <= k < |stack| ==> Same(kept[k], stack[k])
  {
    if stack != [] {
      var newest := stack[|stack| - 1];
      ReplayOntoBase(true, base, newest, current);
      var merged := MergeDocuments(true, base, newest, current).value;
      assert Same(newest, merged);
      NothingDropped(stack[..|stack| - 1], newest, merged);
    }
  }

  /* ---------- which entries are kept ---------- */

  /** The document snapshot `i` was taken over: the next one, or the base of the stack. */
  function TakenOver(stack: seq<Document>, base: Document, i: nat): Document
    requires i < |stack|
  {
    if i + 1 < |stack| then stack[i + 1] else base
  }

  /** What entry `k` was rebased onto: the next kept entry, or the remote document. */
  function NextKept(kept: seq<Document>, current: Document, k: int): Document
    requires -1 <= k
  {
    if k + 1 < |kept| then kept[k + 1] else current
  }

  /** Entry `k` applies what lies between its snapshot and the next one to the next kept entry, or to the remote document. */
  ghost predicate KeptEntry(stack: seq<Document>, base: Document, current: Document, kept: seq<Document>, k: nat)
    requires k < |kept| <= |stack|
  {
    var i := |stack| - |kept| + k;
    MergeDocuments(true, TakenOver(stack, base, i), stack[i], NextKept(kept, current, k)) == Some(kept[k])
  }

  /** The snapshot before the kept ones could not be applied. */
  ghost predicate StoppedAt(stack: seq<Document>, base: Document, current: Document, kept: seq<Document>)
    requires |kept| < |stack|
  {
    var i := |stack| - |kept| - 1;
    MergeDocuments(true, TakenOver(stack, base, i), stack[i], NextKept(kept, current, -1)).None?
  }

  /** The newest snapshots are kept, each rebased in turn, up to the first that conflicts and no further. */
  lemma {:induction false} KeptUpToTheFirstConflict(stack: seq<Document>, base: Document, current: Document)
    ensures var kept := Rebased(stack, base, current);
            && |kept| <= |stack|
            && (forall k :: 0 <= k < |kept| ==> KeptEntry(stack, base, current, kept, k))
            && (|kept| < |stack| ==> StoppedAt(stack, base, current, kept))
  {
    if stack != [] {
      var older, newest := stack[..|stack| - 1], stack[|stack| - 1];
      var merged := MergeDocuments(true, base, newest, current);
      if merged.Some? {
        KeptUpToTheFirstConflict(older, newest, merged.value);
        OneMoreKept(stack, base, current, merged.value, Rebased(older, newest, merged.value));
      }
    }
  }

  lemma OneMoreKept(stack: seq<Document>, base: Document, current: Document, merged: Document, rest: seq<Document>)
    requires stack != [] && MergeDocuments(true, base, stack[|stack| - 1], current) == Some(merged)
    requires var older, newest := stack[..|stack| - 1], stack[|stack| - 1];
             && |rest| <= |older| && (forall k :: 0 <= k < |rest| ==> KeptEntry(older, newest, merged, rest, k))
             && (|rest| < |older| ==> StoppedAt(older, newest, merged, rest))
    ensures var kept := rest + [merged];
            && (forall k :: 0 <= k < |kept| ==> KeptEntry(stack, base, current, kept, k))
            && (|kept| < |stack| ==> StoppedAt(stack, base, current, kept))
  {
    var kept := rest + [merged];
    forall k | 0 <= k < |kept| ensures KeptEntry(stack, base, current, kept, k) {
      if k < |rest| {
        StillKept(stack, base, current, merged, rest, k);
      } else {
        LastKept(stack, base, current, merged, rest);
      }
    }
    if |kept| < |stack| {
      StillStopped(stack, base, current, merged, rest);
    }
  }

  lemma LastKept(stack: seq<Document>, base: Document, current: Document, merged: Document, rest: seq<Document>)
    requires |rest| < |stack| && MergeDocuments(true, base, stack[|stack| - 1], current) == Some(merged)
    ensures KeptEntry(stack, base, current, rest + [merged], |rest|)
  {
    assert (rest + [merged])[|rest|] == merged;
    assert TakenOver(stack, base, |stack| - 1) == base && NextKept(rest + [merged], current, |rest|) == current;
  }

  lemma SameBaseline(stack: seq<Document>, base: Document, i: nat)
    requires stack != [] && i < |stack| - 1
    ensures TakenOver(stack[..|stack| - 1], stack[|stack| - 1], i) == TakenOver(stack, base, i)
    ensures stack[..|stack| - 1][i] == stack[i]
  {
  }

  lemma SameNext(rest: seq<Document>, merged: Document, current: Document, k: int)
    requires -1 <= k < |rest|
    ensures NextKept(rest + [merged], current, k) == NextKept(rest, merged, k)
  {
    assert (rest + [merged])[k + 1] == if k + 1 < |rest| then rest[k + 1] else merged;
  }

  lemma StillKept(stack: seq<Document>, base: Document, current: Document, merged: Document, rest: seq<Document>, k: nat)
    requires stack != [] && k < |rest| <= |stack| - 1 && KeptEntry(stack[..|stack| - 1], stack[|stack| - 1], merged, rest, k)
    ensures KeptEntry(stack, base, current, rest + [merged], k)
  {
    SameBaseline(stack, base, |stack| - 1 - |rest| + k);
    SameNext(rest, merged, current, k);
    assert (rest + [merged])[k] == rest[k];
  }

  lemma StillStopped(stack: seq<Document>, base: Document, current: Document, merged: Document, rest: seq<Document>)
    requires stack != [] && |rest| < |stack| - 1 && StoppedAt(stack[..|stack| - 1], stack[|stack| - 1], merged, rest)
    ensures StoppedAt(stack, base, current, rest + [merged])
  {
    SameBaseline(stack, base, |stack| - 2 - |rest|);
    SameNext(rest, merged, current, -1);
  }
}
