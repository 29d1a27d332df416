/** Runs of the document store: writes, and layouts computed outside the transaction that later commits them
    (packages/pipeline-control/service.ts). */
module StoreRuns {
  import opened Wrappers
  import opened PipelineModel
  import opened Inspection
  import opened PipelineStore
  import opened Revisions
  import Arrangement

  /** What a layout request read before it called the layout engine. */
  datatype Reading = Reading(key: Key, graphRevision: nat, layoutRevision: nat, scope: Option<seq<Id>>, document: Document)

  datatype State = State(data: Database, readings: seq<Reading>)

  datatype Step =
    | Write(r: Request, now: nat)
    | BeginLayout(r: Request)
    | CommitLayout(r: Request, reading: nat, engine: Arrangement.Engine, arranged: Document, now: nat)

  const Nothing := Document(Graph(Id(""), PrototypeV1, "", [], []), map[])

  const Start := State(Database(map[], map[]), [])

  predicate ReadingFits(rd: Reading, r: Request)
    requires r.command.Arrange?
  {
    && rd.key == TargetKey(r) && rd.scope == r.command.scope
    && rd.graphRevision == r.command.graphRevision && rd.layoutRevision == r.command.layoutRevision
  }

  /** The commit step of a layout: the document is one the engine produced from the reading. */
  ghost predicate Commits(catalog: Catalog, s: State, step: Step)
    requires step.CommitLayout?
  {
    && step.r.command.Arrange? && step.reading < |s.readings|
    && ReadingFits(s.readings[step.reading], step.r)
    && Acceptable(catalog, step.arranged)
    && Arrangement.Arranged(catalog, step.engine, s.readings[step.reading].document, step.r.command.scope, step.arranged)
  }

  ghost function Apply(catalog: Catalog, limits: Limits, s: State, step: Step): State {
    match step
    case Write(r, now) =>
      if r.command.Arrange? then s else s.(data := Executed(catalog, limits, s.data, r, Nothing, now).data)
    case BeginLayout(r) =>
      var stored := Stored(s.data, TargetKey(r));
      if r.command.Arrange? && stored.Some? && RevisionsMatch(stored.value.record, r.command, true, true) then
        s.(readings := s.readings + [Reading(TargetKey(r), r.command.graphRevision, r.command.layoutRevision,
                                             r.command.scope, stored.value.record.document)])
      else s
    case CommitLayout(r, _, _, arranged, now) =>
      if Commits(catalog, s, step) then s.(data := Executed(catalog, limits, s.data, r, arranged, now).data) else s
  }

  ghost function Run(catalog: Catalog, limits: Limits, steps: seq<Step>): State {
    if steps == [] then Start else Apply(catalog, limits, Run(catalog, limits, steps[..|steps| - 1]), steps[|steps| - 1])
  }

  ghost predicate DatabaseConsistent(catalog: Catalog, data: Database) {
    forall key :: key in data.pipelines ==> Consistent(catalog, key.pipeline, data.pipelines[key])
  }

  ghost predicate DatabaseExtends(a: Database, b: Database) {
    forall key :: key in a.pipelines ==> key in b.pipelines && Extends(a.pipelines[key], b.pipelines[key])
  }

  lemma CreatedIsConsistent(catalog: Catalog, d: Document, requestId: Id, actor: Id, now: nat)
    requires Acceptable(catalog, d)
    ensures Consistent(catalog, d.graph.id, Created(d, requestId, actor, now))
  {
  }

  lemma WriteKeepsConsistency(catalog: Catalog, stored: Option<Pipeline>, r: Request, arranged: Document, now: nat)
    requires stored.Some? ==> Consistent(catalog, PipelineId(r.command), stored.value)
    requires r.command.Arrange? && stored.Some? ==> Sound(catalog, PipelineId(r.command), arranged)
    requires Written(catalog, stored, r, arranged, now).Success?
    ensures var q := Written(catalog, stored, r, arranged, now).value;
            Consistent(catalog, PipelineId(r.command), q) && (stored.Some? ==> Extends(stored.value, q))
  {
    if r.command.Create? {
      CreatedIsConsistent(catalog, r.command.document, r.requestId, r.actor, now);
    } else {
      ChangeIsSound(catalog, PipelineId(r.command), stored.value, r.actor, r.command, arranged);
      CommitKeepsConsistency(catalog, PipelineId(r.command), stored.value,
                             Changed(catalog, stored.value, r.actor, r.command, arranged).value,
                             KindOf(r.command), r.requestId, r.actor, now);
    }
  }

  lemma ExecutionKeepsConsistency(catalog: Catalog, limits: Limits, data: Database, r: Request, arranged: Document, now: nat)
    requires DatabaseConsistent(catalog, data)
    requires r.command.Arrange? && TargetKey(r) in data.pipelines ==> Sound(catalog, PipelineId(r.command), arranged)
    ensures DatabaseConsistent(catalog, Executed(catalog, limits, data, r, arranged, now).data)
    ensures DatabaseExtends(data, Executed(catalog, limits, data, r, arranged, now).data)
  {
    DataExtendsItself(data);
    var stored := Stored(data, TargetKey(r));
    var outcome := Executed(catalog, limits, data, r, arranged, now).data;
    if outcome != data {
      WriteKeepsConsistency(catalog, stored, r, arranged, now);
      OnePipelineReplaced(catalog, data, outcome, TargetKey(r), Written(catalog, stored, r, arranged, now).value);
    }
  }

  lemma DataExtendsItself(data: Database)
    ensures DatabaseExtends(data, data)
  {
    forall key | key in data.pipelines ensures Extends(data.pipelines[key], data.pipelines[key]) {
    }
  }

  lemma OnePipelineReplaced(catalog: Catalog, data: Database, next: Database, key: Key, q: Pipeline)
    requires DatabaseConsistent(catalog, data) && next.pipelines == data.pipelines[key := q]
    requires Consistent(catalog, key.pipeline, q)
    requires key in data.pipelines ==> Extends(data.pipelines[key], q)
    ensures DatabaseConsistent(catalog, next) && DatabaseExtends(data, next)
  {
    DataExtendsItself(data);
  }

  /** The reading is a record of its pipeline's history. */
  ghost predicate ReadingKnown(data: Database, rd: Reading) {
    rd.key in data.pipelines && exists i :: RecordIs(data.pipelines[rd.key], i, rd)
  }

  ghost predicate RecordIs(p: Pipeline, i: int, rd: Reading) {
    && 0 <= i < |p.history|
    && SameContent(RecordAt(p, i), Record(rd.document, rd.graphRevision, rd.layoutRevision, 0, rd.key.pipeline))
  }

  ghost predicate Invariant(catalog: Catalog, s: State) {
    DatabaseConsistent(catalog, s.data) && forall rd :: rd in s.readings ==> ReadingKnown(s.data, rd)
  }

  lemma ReadingStaysKnown(a: Database, b: Database, rd: Reading)
    requires DatabaseExtends(a, b) && ReadingKnown(a, rd)
    ensures ReadingKnown(b, rd)
  {
    var i :| RecordIs(a.pipelines[rd.key], i, rd);
    assert SameContent(RecordAt(b.pipelines[rd.key], i), RecordAt(a.pipelines[rd.key], i));
    assert RecordIs(b.pipelines[rd.key], i, rd);
  }

  /** A layout that still matches the current revisions was computed from the current document. */
  lemma ReadingIsCurrent(catalog: Catalog, s: State, rd: Reading)
    requires Invariant(catalog, s) && rd in s.readings
    requires var record := s.data.pipelines[rd.key].record;
             rd.graphRevision == record.graphRevision && rd.layoutRevision == record.layoutRevision
    ensures s.data.pipelines[rd.key].record.document == rd.document
  {
    var p := s.data.pipelines[rd.key];
    var i :| RecordIs(p, i, rd);
    RevisionsNameContent(catalog, rd.key.pipeline, p, i, |p.history| - 1);
  }

  lemma ArrangedIsSound(catalog: Catalog, s: State, step: Step)
    requires Invariant(catalog, s) && step.CommitLayout? && Commits(catalog, s, step)
    ensures Sound(catalog, PipelineId(step.r.command), step.arranged)
  {
    var rd := s.readings[step.reading];
    assert rd in s.readings && ReadingKnown(s.data, rd);
    var p := s.data.pipelines[rd.key];
    var i :| RecordIs(p, i, rd);
    assert Sound(catalog, rd.key.pipeline, RecordAt(p, i).document);
  }

  lemma StepKeepsInvariant(catalog: Catalog, limits: Limits, s: State, step: Step)
    requires Invariant(catalog, s)
    ensures Invariant(catalog, Apply(catalog, limits, s, step))
  {
    var t := Apply(catalog, limits, s, step);
    match step
    case BeginLayout(r) =>
      if t != s {
        var rd := t.readings[|s.readings|];
        var p := s.data.pipelines[rd.key];
        assert RecordIs(p, |p.history| - 1, rd);
      }
    case Write(r, now) =>
      if !r.command.Arrange? {
        ExecutionKeepsConsistency(catalog, limits, s.data, r, Nothing, now);
        forall rd | rd in s.readings ensures ReadingKnown(t.data, rd) { ReadingStaysKnown(s.data, t.data, rd); }
      }
    case CommitLayout(r, _, _, arranged, now) =>
      if Commits(catalog, s, step) {
        ArrangedIsSound(catalog, s, step);
        ExecutionKeepsConsistency(catalog, limits, s.data, r, arranged, now);
        forall rd | rd in s.readings ensures ReadingKnown(t.data, rd) { ReadingStaysKnown(s.data, t.data, rd); }
      }
  }

  /** Every reachable store satisfies the invariant. */
  lemma {:induction false} RunsAreInvariant(catalog: Catalog, limits: Limits, steps: seq<Step>)
    ensures Invariant(catalog, Run(catalog, limits, steps))
  {
    if steps != [] {
      RunsAreInvariant(catalog, limits, steps[..|steps| - 1]);
      StepKeepsInvariant(catalog, limits, Run(catalog, limits, steps[..|steps| - 1]), steps[|steps| - 1]);
    }
  }

  /** The layout was computed from the very document it replaces, so the graph and the position of every node that is pinned
      or not selected are those of the current document; the rest is stored as computed. */
  ghost predicate OverItsSource(p: Pipeline, source: Document, scope: Option<seq<Id>>, arranged: Document, q: Pipeline) {
    && p.record.document == source
    && q.record.document == arranged
    && q.record.document.graph == p.record.document.graph
    && q.record.graphRevision == p.record.graphRevision
    && q.record.document.layout.Keys == p.record.document.layout.Keys
    && forall n :: n in p.record.document.graph.nodes && StaysPut(p.record.document, scope, n.id)
         ==> q.record.document.layout[n.id] == p.record.document.layout[n.id]
  }

  /** In any run, a committed layout overwrites nobody. */
  lemma LayoutCommitsOverItsSource(catalog: Catalog, limits: Limits, steps: seq<Step>, step: Step)
    requires step.CommitLayout? && Commits(catalog, Run(catalog, limits, steps), step)
    requires var s := Run(catalog, limits, steps);
             Written(catalog, Stored(s.data, TargetKey(step.r)), step.r, step.arranged, step.now).Success?
    ensures var s := Run(catalog, limits, steps);
            var p := s.data.pipelines[TargetKey(step.r)];
            OverItsSource(p, s.readings[step.reading].document, step.r.command.scope, step.arranged,
                          Written(catalog, Some(p), step.r, step.arranged, step.now).value)
  {
    RunsAreInvariant(catalog, limits, steps);
    LayoutWritten(catalog, Run(catalog, limits, steps), step);
  }

  lemma LayoutWritten(catalog: Catalog, s: State, step: Step)
    requires Invariant(catalog, s) && step.CommitLayout? && Commits(catalog, s, step)
    requires Written(catalog, Stored(s.data, TargetKey(step.r)), step.r, step.arranged, step.now).Success?
    ensures var p := s.data.pipelines[TargetKey(step.r)];
            OverItsSource(p, s.readings[step.reading].document, step.r.command.scope, step.arranged,
                          Written(catalog, Some(p), step.r, step.arranged, step.now).value)
  {
    ReadingIsCurrent(catalog, s, s.readings[step.reading]);
  }

  /** The node has a position, and is pinned or not among those to be laid out. */
  predicate StaysPut(d: Document, scope: Option<seq<Id>>, id: Id) {
    id in d.layout && (d.layout[id].pinned == Some(true) || (scope.Some? && id !in scope.value))
  }

  /** A layout in flight is committed exactly if both revisions are still those it was computed for. */
  lemma LayoutsCommitExactly(catalog: Catalog, limits: Limits, data: Database, r: Request, arranged: Document, now: nat)
    requires r.command.Arrange? && TargetKey(r) in data.pipelines && Fresh(limits, data, r)
    ensures var p, outcome := data.pipelines[TargetKey(r)], Executed(catalog, limits, data, r, arranged, now);
            var current := p.record.graphRevision == r.command.graphRevision && p.record.layoutRevision == r.command.layoutRevision;
            && (Permitted(outcome.result) <==> current)
            && (!current ==> outcome.result == Failure(RevisionMismatch))
            && (outcome.result.Success? ==> Answers(outcome, TargetKey(r)) && outcome.result.value.document == arranged)
  {
  }

  /** A creation is permitted exactly if the document is acceptable and its id is free in the workspace. */
  lemma CreatesExactly(catalog: Catalog, limits: Limits, data: Database, r: Request, now: nat)
    requires r.command.Create? && Fresh(limits, data, r)
    ensures var d, outcome := r.command.document, Executed(catalog, limits, data, r, Nothing, now);
            && (Permitted(outcome.result) <==> Acceptable(catalog, d) && Key(r.workspace, d.graph.id) !in data.pipelines)
            && (outcome.result == Failure(InvalidPipeline) <==> !Acceptable(catalog, d))
            && (outcome.result.Success? ==> Answers(outcome, TargetKey(r)) && outcome.result.value == Record(d, 1, 1, now, r.actor))
  {
  }

  /* ---------- the limits ---------- */

  ghost predicate StoreFits(limits: Limits, data: Database) {
    |data.receipts| <= limits.maxReceipts && limits.fits(data)
  }

  lemma ExecutionStaysWithinLimits(catalog: Catalog, limits: Limits, data: Database, r: Request, arranged: Document, now: nat)
    requires StoreFits(limits, data)
    ensures StoreFits(limits, Executed(catalog, limits, data, r, arranged, now).data)
  {
    var key := ReceiptKey(r.actor, r.workspace, r.idempotencyKey);
    if key !in data.receipts {
      OneMoreReceipt(data.receipts, key, Executed(catalog, limits, data, r, arranged, now).data.receipts);
    }
  }

  lemma OneMoreReceipt(a: map<ReceiptKey, Receipt>, key: ReceiptKey, b: map<ReceiptKey, Receipt>)
    ensures key !in a && key in b && b == a[key := b[key]] ==> |b| == |a| + 1
  {
    if key !in a && key in b && b == a[key := b[key]] {
      assert b.Keys == a.Keys + {key};
      assert |b| == |b.Keys| && |a| == |a.Keys|;
    }
  }

  /** The store never outgrows its limits. */
  lemma {:induction false} RunsStayWithinLimits(catalog: Catalog, limits: Limits, steps: seq<Step>)
    requires StoreFits(limits, Start.data)
    ensures StoreFits(limits, Run(catalog, limits, steps).data)
  {
    if steps != [] {
      var init, last := steps[..|steps| - 1], steps[|steps| - 1];
      RunsStayWithinLimits(catalog, limits, init);
      match last
      case Write(r, now) => ExecutionStaysWithinLimits(catalog, limits, Run(catalog, limits, init).data, r, Nothing, now);
      case CommitLayout(r, _, _, arranged, now) => ExecutionStaysWithinLimits(catalog, limits, Run(catalog, limits, init).data, r, arranged, now);
      case BeginLayout(_) =>
    }
  }
}
