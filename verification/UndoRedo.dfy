/** What undo and redo mean (packages/pipeline-control/service.ts): for one writer the store is the familiar
    two-stack editor, and for several writers an undo or redo touches only what its target edit touched. */
module UndoRedo {
  import opened Wrappers
  import opened PipelineModel
  import opened Documents
  import opened PipelineStore
  import opened Revisions

  predicate IsLive(e: Entry) {
    IsEdit(e.kind) && !e.undone
  }

  /** Positions of the edits in effect, oldest first. */
  function Live(h: seq<Entry>): (r: seq<nat>)
    ensures forall k :: 0 <= k < |r| ==> r[k] < |h| && IsLive(h[r[k]])
    ensures forall k, l :: 0 <= k < l < |r| ==> r[k] < r[l]
  {
    if h == [] then []
    else Live(h[..|h| - 1]) + (if IsLive(h[|h| - 1]) then [|h| - 1] else [])
  }

  lemma {:induction false} LiveIsComplete(h: seq<Entry>, i: nat)
    requires i < |h| && IsLive(h[i])
    ensures i in Live(h)
  {
    if i < |h| - 1 {
      LiveIsComplete(h[..|h| - 1], i);
    }
  }

  lemma {:induction false} LiveDependsOnFlags(h: seq<Entry>, k: seq<Entry>)
    requires |h| == |k| && forall i :: 0 <= i < |h| ==> (IsLive(h[i]) <==> IsLive(k[i]))
    ensures Live(h) == Live(k)
  {
    if h != [] {
      LiveDependsOnFlags(h[..|h| - 1], k[..|k| - 1]);
    }
  }

  lemma LiveAppend(h: seq<Entry>, e: Entry)
    ensures Live(h + [e]) == Live(h) + (if IsLive(e) then [|h|] else [])
  {
    assert (h + [e])[..|h|] == h;
  }

  lemma {:induction false} LiveNewest(h: seq<Entry>, actor: Id)
    requires forall i :: 0 <= i < |h| ==> h[i].actor == actor
    ensures var live := Live(h);
            LastOwnEdit(h, actor) == if live == [] then -1 else live[|live| - 1]
  {
    if h != [] {
      LiveNewest(h[..|h| - 1], actor);
    }
  }

  /** Taking the newest live edit out. */
  lemma {:induction false} LiveAfterUndo(h: seq<Entry>, i: nat)
    requires i < |h| && IsLive(h[i]) && forall j :: i < j < |h| ==> !IsLive(h[j])
    ensures Live(h) == Live(h[i := h[i].(undone := true)]) + [i]
  {
    var k := h[i := h[i].(undone := true)];
    if i == |h| - 1 {
      assert k[..i] == h[..i];
    } else {
      LiveAfterUndo(h[..|h| - 1], i);
      assert k[..|h| - 1] == h[..|h| - 1][i := h[i].(undone := true)];
    }
  }

  /* ---------- the invariant of a pipeline with a single writer ---------- */

  /** The content, up to node order, that history entry `i` left. */
  function State(p: Pipeline, i: nat): Essence
    requires i < |p.history|
  {
    EssenceOf(RecordAt(p, i).document)
  }

  function Now(p: Pipeline): Essence {
    EssenceOf(p.record.document)
  }

  ghost predicate Owned(p: Pipeline, actor: Id) {
    && (forall i :: 0 <= i < |p.history| ==> p.history[i].actor == actor)
    && (forall j :: 0 <= j < |p.redo| ==> p.redo[j].actor == actor)
  }

  /** Edit `j` started from the content edit `i` left. */
  ghost predicate Follows(p: Pipeline, i: nat, j: nat) {
    i < j < |p.history| && State(p, i) == State(p, j - 1)
  }

  /** Each live edit started from what its predecessor left, and the newest left the current content. */
  ghost predicate LiveChain(p: Pipeline, live: seq<nat>) {
    && |live| > 0 && live[0] == 0
    && (forall k :: 0 <= k < |live| ==> live[k] < |p.history|)
    && (forall k :: 0 <= k < |live| - 1 ==> Follows(p, live[k], live[k + 1]))
    && State(p, live[|live| - 1]) == Now(p)
  }

  /** The redo entry replays exactly the undone edit at position `t`. */
  ghost predicate Replays(p: Pipeline, r: RedoEntry, t: nat) {
    && 0 < t < |p.history|
    && p.history[t].undone && IsEdit(p.history[t].kind) && p.history[t].id == r.target
    && EssenceOf(r.undoneDocument) == State(p, t - 1) && EssenceOf(r.document) == State(p, t)
  }

  ghost predicate RedoChain(p: Pipeline, ts: seq<nat>) {
    && |ts| == |p.redo| <= REDO_LIMIT
    && (forall j :: 0 <= j < |ts| ==> Replays(p, p.redo[j], ts[j]))
    && (forall j, k :: 0 <= j < k < |ts| ==> ts[k] < ts[j])
    && (forall j :: 0 <= j < |ts| ==> Continues(p, j))
  }

  /** Undoing went from entry to entry: each one ended where the next one on the stack began. */
  ghost predicate Continues(p: Pipeline, j: nat)
    requires j < |p.redo|
  {
    EssenceOf(p.redo[j].undoneDocument) == if j + 1 < |p.redo| then EssenceOf(p.redo[j + 1].document) else Now(p)
  }

  ghost predicate SoundRedo(catalog: Catalog, id: Id, p: Pipeline) {
    forall j :: 0 <= j < |p.redo| ==> Sound(catalog, id, p.redo[j].document) && Sound(catalog, id, p.redo[j].undoneDocument)
  }

  /** The invariant; `ts` are the positions of the edits on the redo stack. */
  ghost predicate Solo(catalog: Catalog, id: Id, actor: Id, p: Pipeline, ts: seq<nat>) {
    && Consistent(catalog, id, p)
    && Owned(p, actor)
    && SoundRedo(catalog, id, p)
    && LiveChain(p, Live(p.history))
    && RedoChain(p, ts)
    && (forall j :: 0 <= j < |ts| ==> Newest(p) < ts[j])
  }

  function Newest(p: Pipeline): int {
    var live := Live(p.history);
    if live == [] then -1 else live[|live| - 1]
  }

  /* ---------- the two-stack editor ---------- */

  datatype Editor = Editor(past: seq<Essence>, present: Essence, future: seq<Essence>)

  function EditorUndo(e: Editor): Editor
    requires e.past != []
  {
    var future := [e.present] + e.future;
    Editor(e.past[..|e.past| - 1], e.past[|e.past| - 1], if |future| > REDO_LIMIT then future[..REDO_LIMIT] else future)
  }

  function EditorRedo(e: Editor): Editor
    requires e.future != []
  {
    Editor(e.past + [e.present], e.future[0], e.future[1..])
  }

  function EditorEdit(e: Editor, next: Essence): Editor {
    Editor(e.past + [e.present], next, [])
  }

  /** What the live edits after the first started from. */
  ghost function Past(p: Pipeline, live: seq<nat>): seq<Essence>
    requires LiveChain(p, live)
  {
    seq(|live| - 1, k requires 0 <= k < |live| - 1 => State(p, live[k]))
  }

  ghost function Future(p: Pipeline): seq<Essence> {
    seq(|p.redo|, j requires 0 <= j < |p.redo| => EssenceOf(p.redo[|p.redo| - 1 - j].document))
  }

  /** The editor a stored pipeline stands for. */
  ghost function View(p: Pipeline): Editor
    requires LiveChain(p, Live(p.history))
  {
    Editor(Past(p, Live(p.history)), Now(p), Future(p))
  }

  /** Replaying a change onto the document it came from is accepted and gives the changed document. */
  lemma ReplayIsAccepted(catalog: Catalog, id: Id, base: Document, incoming: Document, current: Document)
    requires Sound(catalog, id, base) && Sound(catalog, id, incoming) && Sound(catalog, id, current)
    requires EssenceOf(base) == EssenceOf(current)
    ensures MergeDocumentChange(catalog, base, incoming, current).Success?
    ensures var d := MergeDocumentChange(catalog, base, incoming, current).value;
            EssenceOf(d) == EssenceOf(incoming) && Sound(catalog, id, d)
  {
    SameEssence(base, current);
    ReplayOntoBase(false, base, incoming, current);
    MergedDocumentIsAcceptable(catalog, base, incoming, current);
    var d := MergeDocuments(false, base, incoming, current).value;
    SameEssence(d, incoming);
    SameEssence(incoming, d);
    AcceptableUpToOrder(catalog, incoming, d);
  }

  lemma {:induction false} OwnRedo(redo: seq<RedoEntry>, actor: Id)
    requires forall j :: 0 <= j < |redo| ==> redo[j].actor == actor
    ensures OwnRedoCount(redo, actor) == |redo| && LastOwnRedo(redo, actor) == |redo| - 1
    ensures redo != [] ==> WithoutFirstOwn(redo, actor) == redo[1..]
  {
    if redo != [] {
      OwnRedo(redo[..|redo| - 1], actor);
    }
  }

  /* ---------- the live chain ---------- */

  lemma StateKept(p: Pipeline, q: Pipeline, i: nat)
    requires Extends(p, q) && i < |p.history|
    ensures State(q, i) == State(p, i)
  {
    assert SameContent(RecordAt(q, i), RecordAt(p, i));
  }

  lemma FollowsKept(p: Pipeline, q: Pipeline, i: nat, j: nat)
    requires Extends(p, q) && Follows(p, i, j)
    ensures Follows(q, i, j)
  {
    StateKept(p, q, i);
    StateKept(p, q, j - 1);
  }

  /** A longer history keeps a chain whose newest edit left the current content. */
  lemma ChainKept(p: Pipeline, q: Pipeline, live: seq<nat>, m: nat)
    requires LiveChain(p, live) && Extends(p, q) && 0 < m <= |live|
    requires State(p, live[m - 1]) == Now(q)
    ensures LiveChain(q, live[..m])
    ensures Past(q, live[..m]) == Past(p, live)[..m - 1]
  {
    var part := live[..m];
    forall k | 0 <= k < m - 1 ensures Follows(q, part[k], part[k + 1]) {
      assert Follows(p, live[k], live[k + 1]);
      FollowsKept(p, q, live[k], live[k + 1]);
    }
    StateKept(p, q, live[m - 1]);
    forall k | 0 <= k < m - 1 ensures State(q, part[k]) == State(p, live[k]) {
      StateKept(p, q, live[k]);
    }
  }

  /** A further edit `n`, made on the current content, goes on top of the chain. */
  lemma ChainGrows(p: Pipeline, q: Pipeline, live: seq<nat>, n: nat)
    requires LiveChain(p, live) && Extends(p, q)
    requires live[|live| - 1] < n < |q.history| && State(q, n - 1) == Now(p) && State(q, n) == Now(q)
    ensures LiveChain(q, live + [n])
    ensures Past(q, live + [n]) == Past(p, live) + [Now(p)]
  {
    var longer := live + [n];
    StateKept(p, q, live[|live| - 1]);
    forall k | 0 <= k < |longer| - 1 ensures Follows(q, longer[k], longer[k + 1]) {
      if k < |live| - 1 {
        assert Follows(p, live[k], live[k + 1]);
        FollowsKept(p, q, live[k], live[k + 1]);
      }
    }
    forall k | 0 <= k < |live| ensures State(q, live[k]) == State(p, live[k]) {
      StateKept(p, q, live[k]);
    }
  }

  /* ---------- edits ---------- */

  lemma IdleChain(p: Pipeline, q: Pipeline)
    requires LiveChain(p, Live(p.history)) && Extends(p, q) && q.history == p.history && q.record.document == p.record.document
    ensures LiveChain(q, Live(q.history)) && Past(q, Live(q.history)) == Past(p, Live(p.history))
  {
    var live := Live(p.history);
    assert live[..|live|] == live;
    ChainKept(p, q, live, |live|);
  }

  lemma IdleRedo(p: Pipeline, q: Pipeline, ts: seq<nat>)
    requires RedoChain(p, ts) && Extends(p, q)
    requires q.history == p.history && q.redo == p.redo && q.record.document == p.record.document
    ensures RedoChain(q, ts)
  {
    forall j | 0 <= j < |ts| ensures Replays(q, q.redo[j], ts[j]) && Continues(q, j) {
      assert Replays(p, p.redo[j], ts[j]) && Continues(p, j);
      StateKept(p, q, ts[j] - 1);
      StateKept(p, q, ts[j]);
    }
  }

  /** A write without effect keeps the history, the chain and the redo stack. */
  lemma IdleWrite(catalog: Catalog, id: Id, actor: Id, p: Pipeline, q: Pipeline, ts: seq<nat>)
    requires Solo(catalog, id, actor, p, ts) && Consistent(catalog, id, q) && Extends(p, q)
    requires q.history == p.history && q.redo == p.redo && q.record.document == p.record.document
    ensures Solo(catalog, id, actor, q, ts) && View(q) == View(p)
  {
    IdleChain(p, q);
    IdleRedo(p, q, ts);
  }

  lemma EditedChain(p: Pipeline, q: Pipeline, e: Entry)
    requires LiveChain(p, Live(p.history)) && Extends(p, q) && |p.history| > 0
    requires q.history == p.history + [e] && IsLive(e) && e.before == Some(p.record)
    ensures LiveChain(q, Live(q.history)) && Past(q, Live(q.history)) == Past(p, Live(p.history)) + [Now(p)]
  {
    var n := |p.history|;
    LiveAppend(p.history, e);
    assert RecordAt(q, n - 1) == p.record && RecordAt(q, n) == q.record;
    ChainGrows(p, q, Live(p.history), n);
  }

  lemma EffectiveEdit(catalog: Catalog, id: Id, actor: Id, p: Pipeline, q: Pipeline, ts: seq<nat>, e: Entry)
    requires Solo(catalog, id, actor, p, ts) && Consistent(catalog, id, q) && Extends(p, q)
    requires q.history == p.history + [e] && e.actor == actor && IsLive(e) && e.before == Some(p.record) && q.redo == []
    ensures Solo(catalog, id, actor, q, [])
    ensures View(q) == EditorEdit(View(p), Now(q))
  {
    EditedChain(p, q, e);
  }

  /** An edit by the only writer is an edit of the two-stack editor; one without effect leaves it alone. */
  lemma EditRefines(catalog: Catalog, id: Id, actor: Id, p: Pipeline, ts: seq<nat>, d: Document, kind: Kind, requestId: Id, now: nat)
    returns (us: seq<nat>)
    requires Solo(catalog, id, actor, p, ts) && Sound(catalog, id, d) && IsEdit(kind)
    ensures var q := Committed(p, Change(d, p.history, p.redo), kind, requestId, actor, now);
            && Solo(catalog, id, actor, q, us)
            && View(q) == if d == p.record.document then View(p) else EditorEdit(View(p), EssenceOf(d))
  {
    var q := Committed(p, Change(d, p.history, p.redo), kind, requestId, actor, now);
    CommitKeepsConsistency(catalog, id, p, Change(d, p.history, p.redo), kind, requestId, actor, now);
    if d == p.record.document {
      us := ts;
      IdleWrite(catalog, id, actor, p, q, ts);
    } else {
      us := [];
      EffectiveEdit(catalog, id, actor, p, q, ts, q.history[|p.history|]);
    }
  }

  /* ---------- undo ---------- */

  /** The history after entry `i` had its flag set or cleared, with the write itself recorded if it had an effect. */
  ghost predicate Flagged(p: Pipeline, q: Pipeline, i: nat, undone: bool, actor: Id) {
    && i < |p.history|
    && (q.history == p.history[i := p.history[i].(undone := undone)]
        || exists e :: q.history == p.history[i := p.history[i].(undone := undone)] + [e] && !IsLive(e) && e.actor == actor)
  }

  lemma FlaggedEntry(p: Pipeline, q: Pipeline, i: nat, undone: bool, actor: Id, j: nat)
    requires Flagged(p, q, i, undone, actor) && j < |p.history|
    ensures j < |q.history| && q.history[j] == if j == i then p.history[i].(undone := undone) else p.history[j]
  {
  }

  lemma FlaggedLive(p: Pipeline, q: Pipeline, i: nat, undone: bool, actor: Id)
    requires Flagged(p, q, i, undone, actor)
    ensures Live(q.history) == Live(p.history[i := p.history[i].(undone := undone)])
  {
    var k := p.history[i := p.history[i].(undone := undone)];
    if q.history != k {
      var e :| q.history == k + [e] && !IsLive(e) && e.actor == actor;
      LiveAppend(k, e);
    }
  }

  lemma FlaggedOwned(p: Pipeline, q: Pipeline, i: nat, undone: bool, actor: Id)
    requires Flagged(p, q, i, undone, actor)
    requires forall j :: 0 <= j < |p.history| ==> p.history[j].actor == actor
    ensures forall j :: 0 <= j < |q.history| ==> q.history[j].actor == actor
  {
  }

  lemma UndoShortensLive(p: Pipeline, q: Pipeline, actor: Id)
    requires Newest(p) >= 0 && Flagged(p, q, Newest(p), true, actor)
    ensures Live(q.history) == Live(p.history)[..|Live(p.history)| - 1]
  {
    var i := Newest(p);
    forall j | i < j < |p.history| ensures !IsLive(p.history[j]) {
      if IsLive(p.history[j]) {
        LiveIsComplete(p.history, j);
      }
    }
    LiveAfterUndo(p.history, i);
    FlaggedLive(p, q, i, true, actor);
  }

  lemma ReplaysKept(p: Pipeline, q: Pipeline, i: nat, undone: bool, actor: Id, r: RedoEntry, t: nat)
    requires Flagged(p, q, i, undone, actor) && Extends(p, q) && Replays(p, r, t) && (t != i || undone)
    ensures Replays(q, r, t)
  {
    FlaggedEntry(p, q, i, undone, actor, t);
    StateKept(p, q, t - 1);
    StateKept(p, q, t);
  }

  /** A full redo stack loses its oldest entry. */
  function Room<T>(stack: seq<T>): seq<T> {
    if |stack| >= REDO_LIMIT then stack[1..] else stack
  }

  lemma RoomAt<T>(stack: seq<T>, j: nat)
    requires j < |Room(stack)|
    ensures var k := if |stack| >= REDO_LIMIT then j + 1 else j; k < |stack| && Room(stack)[j] == stack[k]
  {
  }

  lemma PushedAt(p: Pipeline, q: Pipeline, r: RedoEntry, j: nat)
    requires q.redo == Room(p.redo) + [r] && j < |Room(p.redo)|
    ensures var k := if |p.redo| >= REDO_LIMIT then j + 1 else j;
            && k < |p.redo| && q.redo[j] == p.redo[k]
            && q.redo[j + 1] == if k + 1 < |p.redo| then p.redo[k + 1] else r
  {
  }

  /** Entry `j` of the redo stack after an undo still replays its edit and continues the one before it. */
  lemma UndoKeepsEntry(p: Pipeline, q: Pipeline, ts: seq<nat>, i: nat, actor: Id, r: RedoEntry, j: nat)
    requires RedoChain(p, ts) && Flagged(p, q, i, true, actor) && Extends(p, q)
    requires q.redo == Room(p.redo) + [r] && EssenceOf(r.document) == Now(p)
    requires j < |Room(ts)|
    ensures Replays(q, q.redo[j], Room(ts)[j]) && Continues(q, j)
  {
    var k := if |ts| >= REDO_LIMIT then j + 1 else j;
    RoomAt(ts, j);
    PushedAt(p, q, r, j);
    assert Replays(p, p.redo[k], ts[k]) && Continues(p, k);
    ReplaysKept(p, q, i, true, actor, p.redo[k], ts[k]);
  }

  lemma RoomDescends(ts: seq<nat>, i: nat)
    requires |ts| <= REDO_LIMIT && (forall j, k :: 0 <= j < k < |ts| ==> ts[k] < ts[j]) && (forall j :: 0 <= j < |ts| ==> i < ts[j])
    ensures |Room(ts) + [i]| <= REDO_LIMIT
    ensures var us := Room(ts) + [i]; forall j, k :: 0 <= j < k < |us| ==> us[k] < us[j]
  {
  }

  lemma UndoPushes(p: Pipeline, q: Pipeline, ts: seq<nat>, i: nat, actor: Id, r: RedoEntry)
    requires RedoChain(p, ts) && Flagged(p, q, i, true, actor) && Extends(p, q)
    requires q.redo == Room(p.redo) + [r] && Replays(q, r, i)
    requires forall j :: 0 <= j < |ts| ==> i < ts[j]
    requires EssenceOf(r.document) == Now(p) && EssenceOf(r.undoneDocument) == Now(q)
    ensures RedoChain(q, Room(ts) + [i])
  {
    var us := Room(ts) + [i];
    RoomDescends(ts, i);
    forall j | 0 <= j < |us| ensures Replays(q, q.redo[j], us[j]) && Continues(q, j) {
      if j < |us| - 1 {
        UndoKeepsEntry(p, q, ts, i, actor, r, j);
      }
    }
  }

  lemma UndoFuture(p: Pipeline, q: Pipeline, r: RedoEntry)
    requires |p.redo| <= REDO_LIMIT && q.redo == Room(p.redo) + [r] && EssenceOf(r.document) == Now(p)
    ensures var future := [Now(p)] + Future(p);
            Future(q) == if |future| > REDO_LIMIT then future[..REDO_LIMIT] else future
  {
    var drop := if |p.redo| >= REDO_LIMIT then 1 else 0;
    forall j | 0 < j < |q.redo| ensures Future(q)[j] == Future(p)[j - 1] {
      assert q.redo[|q.redo| - 1 - j] == p.redo[|q.redo| - 1 - j + drop];
    }
  }

  lemma UndoChain(p: Pipeline, q: Pipeline, actor: Id)
    requires LiveChain(p, Live(p.history)) && Extends(p, q)
    requires Newest(p) > 0 && Flagged(p, q, Newest(p), true, actor)
    requires Now(q) == State(p, Newest(p) - 1)
    ensures LiveChain(q, Live(q.history)) && Newest(q) < Newest(p)
    ensures Past(q, Live(q.history)) == Past(p, Live(p.history))[..|Live(p.history)| - 2]
    ensures Now(q) == Past(p, Live(p.history))[|Live(p.history)| - 2]
  {
    var live := Live(p.history);
    var last := |live| - 1;
    assert live[0] != live[last];
    UndoShortensLive(p, q, actor);
    assert Follows(p, live[last - 1], live[last - 1 + 1]);
    ChainKept(p, q, live, last);
  }

  lemma UndoCommitted(catalog: Catalog, id: Id, actor: Id, p: Pipeline, q: Pipeline, ts: seq<nat>, r: RedoEntry)
    requires Solo(catalog, id, actor, p, ts) && Consistent(catalog, id, q) && Extends(p, q)
    requires Newest(p) > 0 && Flagged(p, q, Newest(p), true, actor)
    requires q.redo == Room(p.redo) + [r] && r.actor == actor && r.target == p.history[Newest(p)].id
    requires r.document == p.record.document && r.undoneDocument == q.record.document
    requires Now(q) == State(p, Newest(p) - 1)
    ensures Solo(catalog, id, actor, q, Room(ts) + [Newest(p)])
  {
    var i := Newest(p);
    UndoChain(p, q, actor);
    OwnedAfterUndo(p, q, i, actor, r);
    SoundAfterUndo(catalog, id, p, q, r);
    UndoneEntryReplays(p, q, actor, r);
    UndoPushes(p, q, ts, i, actor, r);
    OrderAfterUndo(p, q, ts);
  }

  lemma UndoCommittedView(p: Pipeline, q: Pipeline, actor: Id, r: RedoEntry)
    requires LiveChain(p, Live(p.history)) && Extends(p, q) && |p.redo| <= REDO_LIMIT
    requires Newest(p) > 0 && Flagged(p, q, Newest(p), true, actor)
    requires q.redo == Room(p.redo) + [r] && r.document == p.record.document && Now(q) == State(p, Newest(p) - 1)
    ensures View(p).past != [] && LiveChain(q, Live(q.history)) && View(q) == EditorUndo(View(p))
  {
    UndoChain(p, q, actor);
    UndoView(p, q, r);
  }

  lemma OwnedAfterUndo(p: Pipeline, q: Pipeline, i: nat, actor: Id, r: RedoEntry)
    requires Owned(p, actor) && Flagged(p, q, i, true, actor) && q.redo == Room(p.redo) + [r] && r.actor == actor
    ensures Owned(q, actor)
  {
    FlaggedOwned(p, q, i, true, actor);
    forall j | 0 <= j < |q.redo| ensures q.redo[j].actor == actor {
      if j < |q.redo| - 1 {
        assert q.redo[j] in p.redo;
      }
    }
  }

  lemma SoundAfterUndo(catalog: Catalog, id: Id, p: Pipeline, q: Pipeline, r: RedoEntry)
    requires Consistent(catalog, id, p) && Consistent(catalog, id, q)
    requires SoundRedo(catalog, id, p) && q.redo == Room(p.redo) + [r]
    requires r.document == p.record.document && r.undoneDocument == q.record.document
    ensures SoundRedo(catalog, id, q)
  {
    SoundDocs(catalog, id, p);
    SoundDocs(catalog, id, q);
    forall j | 0 <= j < |q.redo|
      ensures Sound(catalog, id, q.redo[j].document) && Sound(catalog, id, q.redo[j].undoneDocument)
    {
      if j < |q.redo| - 1 {
        var m := if |p.redo| >= REDO_LIMIT then j + 1 else j;
        assert q.redo[j] == p.redo[m];
      }
    }
  }

  lemma UndoneEntryReplays(p: Pipeline, q: Pipeline, actor: Id, r: RedoEntry)
    requires Newest(p) > 0 && Flagged(p, q, Newest(p), true, actor) && Extends(p, q)
    requires LiveChain(p, Live(p.history))
    requires r.target == p.history[Newest(p)].id
    requires r.document == p.record.document && EssenceOf(r.undoneDocument) == State(p, Newest(p) - 1)
    ensures Replays(q, r, Newest(p))
  {
    var i := Newest(p);
    FlaggedEntry(p, q, i, true, actor, i);
    StateKept(p, q, i - 1);
    StateKept(p, q, i);
  }

  lemma UndoView(p: Pipeline, q: Pipeline, r: RedoEntry)
    requires LiveChain(p, Live(p.history)) && LiveChain(q, Live(q.history)) && |Live(p.history)| > 1
    requires Past(q, Live(q.history)) == Past(p, Live(p.history))[..|Live(p.history)| - 2]
    requires Now(q) == Past(p, Live(p.history))[|Live(p.history)| - 2]
    requires |p.redo| <= REDO_LIMIT && q.redo == Room(p.redo) + [r] && EssenceOf(r.document) == Now(p)
    ensures View(q) == EditorUndo(View(p))
  {
    UndoFuture(p, q, r);
  }

  lemma OrderAfterUndo(p: Pipeline, q: Pipeline, ts: seq<nat>)
    requires Newest(q) < Newest(p) && Newest(p) > 0
    requires forall j :: 0 <= j < |ts| ==> Newest(p) < ts[j]
    ensures forall j :: 0 <= j < |Room(ts) + [Newest(p)]| ==> Newest(q) < (Room(ts) + [Newest(p)])[j]
  {
  }

  lemma SoundDocs(catalog: Catalog, id: Id, p: Pipeline)
    requires Consistent(catalog, id, p)
    ensures forall i :: 0 <= i < |p.history| ==> Sound(catalog, id, RecordAt(p, i).document)
    ensures RecordAt(p, |p.history| - 1) == p.record
  {
  }

  /** Undo by the only writer never conflicts: it fails exactly when nothing is left, and otherwise is the editor's undo. */
  lemma UndoRefines(catalog: Catalog, id: Id, actor: Id, p: Pipeline, ts: seq<nat>, requestId: Id, now: nat) returns (us: seq<nat>)
    requires Solo(catalog, id, actor, p, ts)
    ensures View(p).past == [] ==> Undone(catalog, p, actor) == Failure(NothingToUndo)
    ensures View(p).past != [] ==>
              && Undone(catalog, p, actor).Success?
              && var q := Committed(p, Undone(catalog, p, actor).value, UndoKind, requestId, actor, now);
                 Solo(catalog, id, actor, q, us) && View(q) == EditorUndo(View(p))
    ensures View(p).past != [] ==> SameEntries(p.history, Undone(catalog, p, actor).value.history)
  {
    var i := Newest(p);
    LiveNewest(p.history, actor);
    us := Room(ts) + [i];
    if View(p).past != [] {
      var change := UndoSucceeds(catalog, id, actor, p, ts);
      var q := Committed(p, change, UndoKind, requestId, actor, now);
      CommittedFlag(p, change, UndoKind, requestId, actor, now, i, true);
      CommitKeepsConsistency(catalog, id, p, change, UndoKind, requestId, actor, now);
      var r := RedoEntry(actor, p.record.document, change.document, p.history[i].id);
      UndoCommitted(catalog, id, actor, p, q, ts, r);
      UndoCommittedView(p, q, actor, r);
    }
  }

  lemma UndoneIs(catalog: Catalog, p: Pipeline, actor: Id, i: nat, d: Document)
    requires LastOwnEdit(p.history, actor) == i < |p.history| && p.history[i].before.Some?
    requires forall j :: 0 <= j < |p.redo| ==> p.redo[j].actor == actor
    requires MergeDocumentChange(catalog, After(p, i), p.history[i].before.value.document, p.record.document) == Success(d)
    ensures Undone(catalog, p, actor)
            == Success(Change(d, p.history[i := p.history[i].(undone := true)],
                              Room(p.redo) + [RedoEntry(actor, p.record.document, d, p.history[i].id)]))
  {
    OwnRedo(p.redo, actor);
  }

  lemma UndoSucceeds(catalog: Catalog, id: Id, actor: Id, p: Pipeline, ts: seq<nat>) returns (change: Change)
    requires Solo(catalog, id, actor, p, ts) && View(p).past != []
    ensures Newest(p) > 0
    ensures Undone(catalog, p, actor) == Success(change)
    ensures Sound(catalog, id, change.document) && EssenceOf(change.document) == State(p, Newest(p) - 1)
    ensures change.history == p.history[Newest(p) := p.history[Newest(p)].(undone := true)]
    ensures change.redo == Room(p.redo) + [RedoEntry(actor, p.record.document, change.document, p.history[Newest(p)].id)]
  {
    var live := Live(p.history);
    var i := Newest(p);
    assert live[0] < live[|live| - 1];
    LiveNewest(p.history, actor);
    SoundDocs(catalog, id, p);
    assert p.history[i].before == Some(RecordAt(p, i - 1)) && After(p, i) == RecordAt(p, i).document;
    ReplayIsAccepted(catalog, id, RecordAt(p, i).document, RecordAt(p, i - 1).document, p.record.document);
    var d := MergeDocumentChange(catalog, RecordAt(p, i).document, RecordAt(p, i - 1).document, p.record.document).value;
    UndoneIs(catalog, p, actor, i, d);
    change := Undone(catalog, p, actor).value;
  }

  lemma CommittedFlag(p: Pipeline, change: Change, kind: Kind, requestId: Id, actor: Id, now: nat, i: nat, undone: bool)
    requires i < |p.history| && change.history == p.history[i := p.history[i].(undone := undone)] && !IsEdit(kind)
    ensures var q := Committed(p, change, kind, requestId, actor, now);
            && Flagged(p, q, i, undone, actor)
            && q.redo == change.redo && q.record.document == change.document
            && SameEntries(p.history, change.history)
  {
    var q := Committed(p, change, kind, requestId, actor, now);
    if q.history != change.history {
      var e := q.history[|p.history|];
      assert q.history == p.history[i := p.history[i].(undone := undone)] + [e] && !IsLive(e) && e.actor == actor;
    }
  }

  /* ---------- redo ---------- */

  lemma RedoLengthensLive(p: Pipeline, q: Pipeline, t: nat, actor: Id)
    requires Newest(p) < t && Flagged(p, q, t, false, actor) && p.history[t].undone && IsEdit(p.history[t].kind)
    ensures Live(q.history) == Live(p.history) + [t]
  {
    var k := p.history[t := p.history[t].(undone := false)];
    assert k[t := k[t].(undone := true)] == p.history;
    forall j | t < j < |k| ensures !IsLive(k[j]) {
      if IsLive(k[j]) {
        LiveIsComplete(p.history, j);
      }
    }
    LiveAfterUndo(k, t);
    FlaggedLive(p, q, t, false, actor);
  }

  lemma RedoChainPops(p: Pipeline, q: Pipeline, ts: seq<nat>, actor: Id)
    requires RedoChain(p, ts) && ts != [] && Extends(p, q)
    requires Flagged(p, q, ts[|ts| - 1], false, actor)
    requires q.redo == p.redo[..|p.redo| - 1] && Now(q) == EssenceOf(p.redo[|p.redo| - 1].document)
    ensures RedoChain(q, ts[..|ts| - 1])
  {
    var us := ts[..|ts| - 1];
    forall j | 0 <= j < |us| ensures Replays(q, q.redo[j], us[j]) && Continues(q, j) {
      assert Continues(p, j);
      ReplaysKept(p, q, ts[|ts| - 1], false, actor, p.redo[j], ts[j]);
    }
  }

  lemma RedoOnTop(p: Pipeline, q: Pipeline, ts: seq<nat>, actor: Id)
    requires LiveChain(p, Live(p.history)) && RedoChain(p, ts) && ts != [] && Extends(p, q)
    requires Newest(p) < ts[|ts| - 1] && Flagged(p, q, ts[|ts| - 1], false, actor)
    requires Now(q) == EssenceOf(p.redo[|p.redo| - 1].document)
    ensures LiveChain(q, Live(q.history)) && Newest(q) == ts[|ts| - 1]
    ensures Past(q, Live(q.history)) == Past(p, Live(p.history)) + [Now(p)]
  {
    var last := |ts| - 1;
    var t := ts[last];
    assert Replays(p, p.redo[last], t) && Continues(p, last);
    RedoLengthensLive(p, q, t, actor);
    StateKept(p, q, t - 1);
    StateKept(p, q, t);
    ChainGrows(p, q, Live(p.history), t);
  }

  lemma RedoStackPopped(catalog: Catalog, id: Id, p: Pipeline, q: Pipeline, t: nat, actor: Id)
    requires Owned(p, actor) && SoundRedo(catalog, id, p) && Flagged(p, q, t, false, actor)
    requires p.redo != [] && q.redo == p.redo[..|p.redo| - 1]
    ensures Owned(q, actor) && SoundRedo(catalog, id, q)
    ensures Future(p) == [EssenceOf(p.redo[|p.redo| - 1].document)] + Future(q)
  {
    FlaggedOwned(p, q, t, false, actor);
  }

  lemma RedoCommitted(catalog: Catalog, id: Id, actor: Id, p: Pipeline, q: Pipeline, ts: seq<nat>)
    requires Solo(catalog, id, actor, p, ts) && Consistent(catalog, id, q) && Extends(p, q) && ts != []
    requires Flagged(p, q, ts[|ts| - 1], false, actor)
    requires q.redo == p.redo[..|p.redo| - 1] && Now(q) == EssenceOf(p.redo[|p.redo| - 1].document)
    ensures Solo(catalog, id, actor, q, ts[..|ts| - 1])
  {
    RedoOnTop(p, q, ts, actor);
    RedoStackPopped(catalog, id, p, q, ts[|ts| - 1], actor);
    RedoChainPops(p, q, ts, actor);
  }

  lemma RedoCommittedView(p: Pipeline, q: Pipeline, ts: seq<nat>, actor: Id)
    requires LiveChain(p, Live(p.history)) && RedoChain(p, ts) && ts != [] && Extends(p, q)
    requires Newest(p) < ts[|ts| - 1] && Flagged(p, q, ts[|ts| - 1], false, actor)
    requires q.redo == p.redo[..|p.redo| - 1] && Now(q) == EssenceOf(p.redo[|p.redo| - 1].document)
    ensures View(p).future != [] && LiveChain(q, Live(q.history)) && View(q) == EditorRedo(View(p))
  {
    RedoOnTop(p, q, ts, actor);
    assert Future(p) == [Now(q)] + Future(q);
    assert ([Now(q)] + Future(q))[1..] == Future(q);
  }

  lemma RedoneIs(catalog: Catalog, p: Pipeline, actor: Id, t: nat, d: Document)
    requires p.redo != [] && (forall j :: 0 <= j < |p.redo| ==> p.redo[j].actor == actor)
    requires IsOnly(p.history, p.redo[|p.redo| - 1].target, t) && p.history[t].undone && p.history[t].actor == actor
    requires var r := p.redo[|p.redo| - 1]; MergeDocumentChange(catalog, r.undoneDocument, r.document, p.record.document) == Success(d)
    ensures Redone(catalog, p, actor)
            == Success(Change(d, p.history[t := p.history[t].(undone := false)], p.redo[..|p.redo| - 1]))
  {
    var last := |p.redo| - 1;
    OwnRedo(p.redo, actor);
    assert p.redo[..last] + p.redo[last + 1..] == p.redo[..last];
  }

  lemma RedoSucceeds(catalog: Catalog, id: Id, actor: Id, p: Pipeline, ts: seq<nat>) returns (change: Change)
    requires Consistent(catalog, id, p) && Owned(p, actor) && SoundRedo(catalog, id, p) && RedoChain(p, ts) && ts != []
    requires IsOnly(p.history, p.redo[|p.redo| - 1].target, ts[|ts| - 1])
    ensures Redone(catalog, p, actor) == Success(change)
    ensures Sound(catalog, id, change.document) && EssenceOf(change.document) == EssenceOf(p.redo[|p.redo| - 1].document)
    ensures change.history == p.history[ts[|ts| - 1] := p.history[ts[|ts| - 1]].(undone := false)]
    ensures change.redo == p.redo[..|p.redo| - 1]
  {
    var last := |ts| - 1;
    var r := p.redo[last];
    assert Replays(p, r, ts[last]) && Continues(p, last);
    SoundDocs(catalog, id, p);
    ReplayIsAccepted(catalog, id, r.undoneDocument, r.document, p.record.document);
    RedoneIs(catalog, p, actor, ts[last], MergeDocumentChange(catalog, r.undoneDocument, r.document, p.record.document).value);
    change := Redone(catalog, p, actor).value;
  }

  ghost predicate UniqueEntry(history: seq<Entry>, id: Id) {
    exists k :: IsOnly(history, id, k)
  }

  /** Redo by the only writer is the editor's redo exactly when the id of the undone request is unique in the history;
      request ids are chosen by the client, and a repeated one makes the redo impossible. */
  lemma RedoRefines(catalog: Catalog, id: Id, actor: Id, p: Pipeline, ts: seq<nat>, requestId: Id, now: nat) returns (us: seq<nat>)
    requires Solo(catalog, id, actor, p, ts)
    ensures p.redo == [] || !UniqueEntry(p.history, p.redo[|p.redo| - 1].target) ==>
              Redone(catalog, p, actor) == Failure(NothingToRedo)
    ensures p.redo != [] && UniqueEntry(p.history, p.redo[|p.redo| - 1].target) ==>
              && Redone(catalog, p, actor).Success?
              && var q := Committed(p, Redone(catalog, p, actor).value, RedoKind, requestId, actor, now);
                 Solo(catalog, id, actor, q, us) && View(q) == EditorRedo(View(p))
    ensures p.redo != [] && UniqueEntry(p.history, p.redo[|p.redo| - 1].target) ==>
              SameEntries(p.history, Redone(catalog, p, actor).value.history)
  {
    us := [];
    if p.redo != [] && UniqueEntry(p.history, p.redo[|p.redo| - 1].target) {
      us := ts[..|ts| - 1];
      RedoAccepted(catalog, id, actor, p, ts, requestId, now);
    } else {
      RedoRefused(catalog, p, actor);
    }
  }

  lemma RedoRefused(catalog: Catalog, p: Pipeline, actor: Id)
    requires forall j :: 0 <= j < |p.redo| ==> p.redo[j].actor == actor
    requires p.redo == [] || !UniqueEntry(p.history, p.redo[|p.redo| - 1].target)
    ensures Redone(catalog, p, actor) == Failure(NothingToRedo)
  {
    OwnRedo(p.redo, actor);
  }

  lemma RedoAccepted(catalog: Catalog, id: Id, actor: Id, p: Pipeline, ts: seq<nat>, requestId: Id, now: nat)
    requires Solo(catalog, id, actor, p, ts)
    requires p.redo != [] && UniqueEntry(p.history, p.redo[|p.redo| - 1].target)
    ensures Redone(catalog, p, actor).Success?
    ensures var q := Committed(p, Redone(catalog, p, actor).value, RedoKind, requestId, actor, now);
            Solo(catalog, id, actor, q, ts[..|ts| - 1]) && View(q) == EditorRedo(View(p))
    ensures SameEntries(p.history, Redone(catalog, p, actor).value.history)
  {
    var last := |ts| - 1;
    assert Replays(p, p.redo[last], ts[last]);
    assert IsOnly(p.history, p.redo[last].target, ts[last]);
    var change := RedoSucceeds(catalog, id, actor, p, ts);
    var q := Committed(p, change, RedoKind, requestId, actor, now);
    CommittedFlag(p, change, RedoKind, requestId, actor, now, ts[last], false);
    CommitKeepsConsistency(catalog, id, p, change, RedoKind, requestId, actor, now);
    RedoCommitted(catalog, id, actor, p, q, ts);
    RedoCommittedView(p, q, ts, actor);
  }
}
