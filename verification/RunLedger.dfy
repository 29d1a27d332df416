/** The ledger of a run database: attempts, generations, retries and resumes (packages/run-control/service.ts). */
module RunLedger {
  import opened Wrappers
  import opened PipelineModel
  import opened RunModel
  import opened RunInvariants
  import opened RunTransitions

  type Runs = map<Id, Run>

  datatype Row = Row(attemptId: Id, generation: nat)

  /** The attempts recorded for one step, oldest first. */
  function RowsFor(attempts: seq<Attempt>, r: Id, n: Id): seq<Row> {
    if attempts == [] then []
    else
      var rest := RowsFor(attempts[..|attempts| - 1], r, n);
      var a := attempts[|attempts| - 1];
      if a.run == r && a.node == n then rest + [Row(a.attemptId, a.generation)] else rest
  }

  /** Exactly one attempt per generation, and the newest one is the live attempt, if any. */
  ghost predicate Agrees(rows: seq<Row>, generation: nat, live: Option<Id>) {
    && |rows| == generation
    && (forall k :: 0 <= k < |rows| ==> rows[k].generation == k + 1)
    && (live.Some? ==> rows != [] && rows[|rows| - 1].attemptId == live.value)
  }

  ghost predicate Booked(attempts: seq<Attempt>, r: Id, n: Id, s: RunStep) {
    Agrees(RowsFor(attempts, r, n), s.generation, s.attemptId)
  }

  /** How often a run was resumed, read off its events. */
  function Resumes(events: seq<Event>, r: Id): nat {
    if events == [] then 0
    else
      var e := events[|events| - 1];
      Resumes(events[..|events| - 1], r) + (if e == Event(r, ResumeRequested) then 1 else 0)
  }

  /** Three dispatches per start or resume: the first one and at most two retries. */
  predicate Budgeted(s: RunStep, resumes: nat) {
    s.generation <= 3 * resumes + s.retries + (if s.state.Pending? then 0 else 1)
  }

  ghost predicate DistinctAttempts(attempts: seq<Attempt>) {
    forall i, j :: 0 <= i < j < |attempts| ==> attempts[i].attemptId != attempts[j].attemptId
  }

  predicate HasStep(runs: Runs, r: Id, n: Id) {
    r in runs && n in runs[r].steps
  }

  ghost predicate RowsKnown(runs: Runs, attempts: seq<Attempt>) {
    forall i :: 0 <= i < |attempts| ==> HasStep(runs, attempts[i].run, attempts[i].node)
  }

  ghost predicate EventsKnown(runs: Runs, events: seq<Event>) {
    forall e :: e in events ==> e.run in runs
  }

  ghost predicate Shaped(run: Run) {
    run.steps.Keys == NodeIds(run.graph.nodes) && UniqueIds(run.graph.nodes) && OneSourcePerInput(run.graph.edges)
  }

  ghost predicate RunSound(runs: Runs, r: Id) {
    r in runs && runs[r].id == r && Shaped(runs[r]) && RunOk(runs[r])
  }

  ghost predicate RunsOk(runs: Runs) {
    forall r :: r in runs ==> RunSound(runs, r)
  }

  ghost predicate StepsBooked(runs: Runs, attempts: seq<Attempt>) {
    forall r, n :: HasStep(runs, r, n) ==> Booked(attempts, r, n, runs[r].steps[n])
  }

  ghost predicate StepsBudgeted(runs: Runs, events: seq<Event>) {
    forall r, n :: HasStep(runs, r, n) ==> Budgeted(runs[r].steps[n], Resumes(events, r))
  }

  ghost predicate DbOk(db: Database) {
    && RunsOk(db.runs)
    && DistinctAttempts(db.attempts) && RowsKnown(db.runs, db.attempts) && StepsBooked(db.runs, db.attempts)
    && EventsKnown(db.runs, db.events) && StepsBudgeted(db.runs, db.events)
  }

  /* ---------- rows and resumes under growth ---------- */

  ghost predicate SameRows(a: seq<Attempt>, b: seq<Attempt>) {
    |a| == |b| && forall i :: 0 <= i < |a| ==> SameRow(a[i], b[i])
  }

  predicate SameRow(a: Attempt, b: Attempt) {
    b.(observation := None) == a.(observation := None)
  }

  lemma {:induction false} RowsSame(a: seq<Attempt>, b: seq<Attempt>, r: Id, n: Id)
    requires SameRows(a, b)
    ensures RowsFor(a, r, n) == RowsFor(b, r, n)
  {
    if a != [] {
      RowsSame(a[..|a| - 1], b[..|b| - 1], r, n);
      assert SameRow(a[|a| - 1], b[|b| - 1]);
    }
  }

  lemma RowsAfter(attempts: seq<Attempt>, row: Attempt, r: Id, n: Id)
    ensures RowsFor(attempts + [row], r, n) ==
            RowsFor(attempts, r, n) + (if row.run == r && row.node == n then [Row(row.attemptId, row.generation)] else [])
  {
    assert (attempts + [row])[..|attempts|] == attempts;
  }

  lemma {:induction false} NoRows(attempts: seq<Attempt>, r: Id, n: Id)
    requires forall i :: 0 <= i < |attempts| ==> attempts[i].run != r
    ensures RowsFor(attempts, r, n) == []
  {
    if attempts != [] {
      NoRows(attempts[..|attempts| - 1], r, n);
    }
  }

  lemma ResumesAfter(events: seq<Event>, e: Event, r: Id)
    ensures Resumes(events + [e], r) == Resumes(events, r) + (if e == Event(r, ResumeRequested) then 1 else 0)
  {
    assert (events + [e])[..|events|] == events;
  }

  lemma {:induction false} NoResumes(events: seq<Event>, more: seq<Event>, r: Id)
    requires forall k :: 0 <= k < |more| ==> !more[k].kind.ResumeRequested?
    ensures Resumes(events + more, r) == Resumes(events, r)
  {
    if more == [] {
      assert events + more == events;
    } else {
      NoResumes(events, more[..|more| - 1], r);
      ResumesAfter(events + more[..|more| - 1], more[|more| - 1], r);
      assert events + more == events + more[..|more| - 1] + [more[|more| - 1]];
    }
  }

  lemma UnknownRun(events: seq<Event>, runs: Runs, r: Id)
    requires EventsKnown(runs, events) && r !in runs
    ensures Resumes(events, r) == 0
  {
    if events != [] {
      UnknownRun(events[..|events| - 1], runs, r);
      assert events[|events| - 1] in events;
    }
  }

  /* ---------- quiet transactions: no dispatch, no resume, no new run ---------- */

  ghost predicate Kept(a: Runs, b: Runs, r: Id) {
    r in a && r in b && Progress(a[r], b[r]) && RunOk(b[r])
  }

  ghost predicate QuietRuns(a: Runs, b: Runs) {
    a.Keys == b.Keys && forall r :: r in a ==> Kept(a, b, r)
  }

  ghost predicate QuietMore(runs: Runs, more: seq<Event>) {
    forall k :: 0 <= k < |more| ==> more[k].run in runs && !more[k].kind.ResumeRequested?
  }

  ghost predicate QuietEvents(runs: Runs, a: seq<Event>, b: seq<Event>) {
    exists more :: b == a + more && QuietMore(runs, more)
  }

  ghost predicate Quiet(a: Database, b: Database) {
    QuietRuns(a.runs, b.runs) && SameRows(a.attempts, b.attempts) && QuietEvents(a.runs, a.events, b.events)
  }

  lemma ProgressOf(a: Runs, b: Runs, r: Id, n: Id)
    requires QuietRuns(a, b) && HasStep(b, r, n)
    ensures HasStep(a, r, n) && StepProgress(a[r].steps[n], b[r].steps[n])
  {
    assert Kept(a, b, r);
  }

  lemma BookedKept(a: seq<Attempt>, b: seq<Attempt>, r: Id, n: Id, s: RunStep, t: RunStep)
    requires SameRows(a, b) && Booked(a, r, n, s) && StepProgress(s, t)
    ensures Booked(b, r, n, t)
  {
    RowsSame(a, b, r, n);
  }

  lemma BudgetKept(s: RunStep, t: RunStep, resumes: nat)
    requires Budgeted(s, resumes) && StepProgress(s, t)
    ensures Budgeted(t, resumes)
  {
  }

  lemma QuietKeepsBooks(a: Database, b: Database)
    requires Quiet(a, b) && StepsBooked(a.runs, a.attempts)
    ensures StepsBooked(b.runs, b.attempts)
  {
    forall r, n | HasStep(b.runs, r, n) ensures Booked(b.attempts, r, n, b.runs[r].steps[n]) {
      ProgressOf(a.runs, b.runs, r, n);
      BookedKept(a.attempts, b.attempts, r, n, a.runs[r].steps[n], b.runs[r].steps[n]);
    }
  }

  lemma QuietKeepsBudget(a: Database, b: Database)
    requires Quiet(a, b) && StepsBudgeted(a.runs, a.events) && EventsKnown(a.runs, a.events)
    ensures StepsBudgeted(b.runs, b.events) && EventsKnown(b.runs, b.events)
  {
    var more :| b.events == a.events + more && QuietMore(a.runs, more);
    forall r, n | HasStep(b.runs, r, n) ensures Budgeted(b.runs[r].steps[n], Resumes(b.events, r)) {
      ProgressOf(a.runs, b.runs, r, n);
      NoResumes(a.events, more, r);
      BudgetKept(a.runs[r].steps[n], b.runs[r].steps[n], Resumes(a.events, r));
    }
  }

  lemma QuietKeepsRows(a: Database, b: Database)
    requires Quiet(a, b) && DistinctAttempts(a.attempts) && RowsKnown(a.runs, a.attempts)
    ensures DistinctAttempts(b.attempts) && RowsKnown(b.runs, b.attempts)
  {
    forall i | 0 <= i < |b.attempts|
      ensures b.attempts[i].attemptId == a.attempts[i].attemptId && HasStep(b.runs, b.attempts[i].run, b.attempts[i].node)
    {
      assert SameRow(a.attempts[i], b.attempts[i]);
      assert HasStep(a.runs, a.attempts[i].run, a.attempts[i].node);
      assert Kept(a.runs, b.runs, a.attempts[i].run);
    }
  }

  lemma QuietKeepsRuns(a: Runs, b: Runs)
    requires RunsOk(a) && QuietRuns(a, b)
    ensures RunsOk(b)
  {
    forall r | r in b ensures RunSound(b, r) {
      assert RunSound(a, r) && Kept(a, b, r);
    }
  }

  lemma QuietKeepsDb(a: Database, b: Database)
    requires DbOk(a) && Quiet(a, b)
    ensures DbOk(b)
  {
    QuietKeepsRuns(a.runs, b.runs);
    QuietKeepsRows(a, b);
    QuietKeepsBooks(a, b);
    QuietKeepsBudget(a, b);
  }

  /* ---------- transactions on one run ---------- */

  /** Only run `id` changes, and it keeps its name, graph and steps. */
  ghost predicate OneRun(a: Runs, b: Runs, id: Id) {
    && id in a && id in b && b == a[id := b[id]]
    && b[id].id == a[id].id && b[id].graph == a[id].graph && b[id].steps.Keys == a[id].steps.Keys
    && RunOk(b[id])
  }

  lemma OneRunKeepsRuns(a: Runs, b: Runs, id: Id)
    requires RunsOk(a) && OneRun(a, b, id)
    ensures RunsOk(b)
  {
    assert RunSound(a, id);
    forall r | r in b ensures RunSound(b, r) {
      assert RunSound(a, r);
    }
  }

  lemma OneRunKeepsSteps(a: Runs, b: Runs, id: Id, r: Id, n: Id)
    requires OneRun(a, b, id)
    ensures HasStep(a, r, n) <==> HasStep(b, r, n)
  {
  }

  lemma OneRunKeepsKnown(a: Database, b: Database, id: Id)
    requires OneRun(a.runs, b.runs, id) && RowsKnown(a.runs, a.attempts) && EventsKnown(a.runs, a.events)
    ensures RowsKnown(b.runs, a.attempts) && EventsKnown(b.runs, a.events)
  {
    forall i | 0 <= i < |a.attempts| ensures HasStep(b.runs, a.attempts[i].run, a.attempts[i].node) {
      OneRunKeepsSteps(a.runs, b.runs, id, a.attempts[i].run, a.attempts[i].node);
    }
  }

  /* ---------- dispatch ---------- */

  ghost predicate DispatchIn(a: Database, b: Database, id: Id, n: Id, attemptId: Id) {
    && OneRun(a.runs, b.runs, id) && DispatchOf(a.runs[id], b.runs[id], n, attemptId)
    && b.attempts == a.attempts + [Attempt(id, n, attemptId, b.runs[id].steps[n].generation, None)]
    && b.events == a.events + [Event(id, DispatchIntent)]
    && (forall i :: 0 <= i < |a.attempts| ==> a.attempts[i].attemptId != attemptId)
  }

  lemma DispatchKeepsBooks(a: Database, b: Database, id: Id, n: Id, attemptId: Id)
    requires DispatchIn(a, b, id, n, attemptId) && StepsBooked(a.runs, a.attempts)
    ensures StepsBooked(b.runs, b.attempts)
  {
    forall r, m | HasStep(b.runs, r, m) ensures Booked(b.attempts, r, m, b.runs[r].steps[m]) {
      OneRunKeepsSteps(a.runs, b.runs, id, r, m);
      assert Booked(a.attempts, r, m, a.runs[r].steps[m]);
      RowsAfter(a.attempts, Attempt(id, n, attemptId, b.runs[id].steps[n].generation, None), r, m);
    }
  }

  lemma DispatchKeepsBudget(a: Database, b: Database, id: Id, n: Id, attemptId: Id)
    requires DispatchIn(a, b, id, n, attemptId) && StepsBudgeted(a.runs, a.events)
    ensures StepsBudgeted(b.runs, b.events)
  {
    forall r, m | HasStep(b.runs, r, m) ensures Budgeted(b.runs[r].steps[m], Resumes(b.events, r)) {
      OneRunKeepsSteps(a.runs, b.runs, id, r, m);
      assert Budgeted(a.runs[r].steps[m], Resumes(a.events, r));
      ResumesAfter(a.events, Event(id, DispatchIntent), r);
    }
  }

  lemma RowAppended(runs: Runs, attempts: seq<Attempt>, row: Attempt)
    requires DistinctAttempts(attempts) && RowsKnown(runs, attempts) && HasStep(runs, row.run, row.node)
    requires forall i :: 0 <= i < |attempts| ==> attempts[i].attemptId != row.attemptId
    ensures DistinctAttempts(attempts + [row]) && RowsKnown(runs, attempts + [row])
  {
  }

  lemma EventAppended(runs: Runs, events: seq<Event>, e: Event)
    requires EventsKnown(runs, events) && e.run in runs
    ensures EventsKnown(runs, events + [e])
  {
  }

  lemma DispatchKeepsDb(a: Database, b: Database, id: Id, n: Id, attemptId: Id)
    requires DbOk(a) && DispatchIn(a, b, id, n, attemptId)
    ensures DbOk(b)
  {
    OneRunKeepsRuns(a.runs, b.runs, id);
    OneRunKeepsKnown(a, b, id);
    RowAppended(b.runs, a.attempts, Attempt(id, n, attemptId, b.runs[id].steps[n].generation, None));
    EventAppended(b.runs, a.events, Event(id, DispatchIntent));
    DispatchKeepsBooks(a, b, id, n, attemptId);
    DispatchKeepsBudget(a, b, id, n, attemptId);
  }

  /* ---------- resume ---------- */

  ghost predicate ResumeIn(a: Database, b: Database, id: Id) {
    && OneRun(a.runs, b.runs, id) && ResumeOf(a.runs[id], b.runs[id])
    && b.attempts == a.attempts
    && b.events == a.events + [Event(id, ResumeRequested)]
  }

  lemma ResumeKeepsBooks(a: Database, b: Database, id: Id)
    requires ResumeIn(a, b, id) && StepsBooked(a.runs, a.attempts)
    ensures StepsBooked(b.runs, b.attempts)
  {
    forall r, m | HasStep(b.runs, r, m) ensures Booked(b.attempts, r, m, b.runs[r].steps[m]) {
      OneRunKeepsSteps(a.runs, b.runs, id, r, m);
      assert Booked(a.attempts, r, m, a.runs[r].steps[m]);
      assert r == id ==> Resumption(a.runs[r].steps[m], b.runs[r].steps[m]);
    }
  }

  lemma ResumptionBudget(s: RunStep, t: RunStep, resumes: nat)
    requires Budgeted(s, resumes) && Resumption(s, t) && s.retries <= 2
    ensures Budgeted(t, resumes + 1)
  {
  }

  lemma RetriesOf(runs: Runs, r: Id, n: Id)
    requires RunsOk(runs) && HasStep(runs, r, n)
    ensures StepOk(runs[r].steps[n])
  {
    assert RunSound(runs, r);
  }

  lemma ResumeKeepsBudget(a: Database, b: Database, id: Id)
    requires ResumeIn(a, b, id) && StepsBudgeted(a.runs, a.events) && RunsOk(a.runs)
    ensures StepsBudgeted(b.runs, b.events)
  {
    forall r, m | HasStep(b.runs, r, m) ensures Budgeted(b.runs[r].steps[m], Resumes(b.events, r)) {
      OneRunKeepsSteps(a.runs, b.runs, id, r, m);
      assert Budgeted(a.runs[r].steps[m], Resumes(a.events, r));
      ResumesAfter(a.events, Event(id, ResumeRequested), r);
      if r == id {
        RetriesOf(a.runs, r, m);
        ResumptionBudget(a.runs[r].steps[m], b.runs[r].steps[m], Resumes(a.events, r));
      }
    }
  }

  lemma ResumeKeepsDb(a: Database, b: Database, id: Id)
    requires DbOk(a) && ResumeIn(a, b, id)
    ensures DbOk(b)
  {
    OneRunKeepsRuns(a.runs, b.runs, id);
    OneRunKeepsKnown(a, b, id);
    EventAppended(b.runs, a.events, Event(id, ResumeRequested));
    ResumeKeepsBooks(a, b, id);
    ResumeKeepsBudget(a, b, id);
  }

  /* ---------- a new run ---------- */

  ghost predicate NewRunIn(a: Database, b: Database, id: Id) {
    && id !in a.runs && id in b.runs && b.runs == a.runs[id := b.runs[id]]
    && b.runs[id].id == id && Shaped(b.runs[id]) && Unstarted(b.runs[id])
    && b.attempts == a.attempts
    && |b.events| == |a.events| + 1 && b.events == a.events + [b.events[|a.events|]]
    && b.events[|a.events|].run == id && !b.events[|a.events|].kind.ResumeRequested?
  }

  lemma NewStepIsBooked(a: Database, b: Database, id: Id, n: Id)
    requires NewRunIn(a, b, id) && RowsKnown(a.runs, a.attempts) && EventsKnown(a.runs, a.events) && HasStep(b.runs, id, n)
    ensures Booked(b.attempts, id, n, b.runs[id].steps[n]) && Budgeted(b.runs[id].steps[n], Resumes(b.events, id))
  {
    assert NeverDispatched(b.runs[id].steps[n]);
    forall i | 0 <= i < |a.attempts| ensures a.attempts[i].run != id {
      assert HasStep(a.runs, a.attempts[i].run, a.attempts[i].node);
    }
    NoRows(a.attempts, id, n);
  }

  lemma NewRunKeepsLedger(a: Database, b: Database, id: Id)
    requires NewRunIn(a, b, id) && RowsKnown(a.runs, a.attempts) && EventsKnown(a.runs, a.events)
    requires StepsBooked(a.runs, a.attempts) && StepsBudgeted(a.runs, a.events)
    ensures StepsBooked(b.runs, b.attempts) && StepsBudgeted(b.runs, b.events)
  {
    forall r, m | HasStep(b.runs, r, m)
      ensures Booked(b.attempts, r, m, b.runs[r].steps[m]) && Budgeted(b.runs[r].steps[m], Resumes(b.events, r))
    {
      if r == id {
        NewStepIsBooked(a, b, id, m);
      } else {
        assert HasStep(a.runs, r, m);
        ResumesAfter(a.events, b.events[|a.events|], r);
      }
    }
  }

  lemma NewRunKeepsRuns(a: Runs, b: Runs, id: Id)
    requires RunsOk(a) && id !in a && id in b && b == a[id := b[id]]
    requires b[id].id == id && Shaped(b[id]) && RunOk(b[id])
    ensures RunsOk(b)
  {
    forall r | r in b ensures RunSound(b, r) {
      assert r != id ==> RunSound(a, r);
    }
  }

  lemma NewRunKeepsKnown(a: Database, b: Database, id: Id)
    requires NewRunIn(a, b, id) && RowsKnown(a.runs, a.attempts) && EventsKnown(a.runs, a.events)
    ensures RowsKnown(b.runs, b.attempts) && EventsKnown(b.runs, b.events)
  {
    forall i | 0 <= i < |b.attempts| ensures HasStep(b.runs, b.attempts[i].run, b.attempts[i].node) {
      assert HasStep(a.runs, a.attempts[i].run, a.attempts[i].node);
    }
  }

  lemma NewRunKeepsDb(a: Database, b: Database, id: Id)
    requires DbOk(a) && NewRunIn(a, b, id)
    ensures DbOk(b)
  {
    NewRunKeepsRuns(a.runs, b.runs, id);
    NewRunKeepsKnown(a, b, id);
    NewRunKeepsLedger(a, b, id);
  }

  /* ---------- what the ledger says ---------- */

  lemma {:induction false} RowIsAttempt(attempts: seq<Attempt>, r: Id, n: Id, k: nat) returns (i: nat)
    requires k < |RowsFor(attempts, r, n)|
    ensures i < |attempts| && attempts[i].run == r && attempts[i].node == n
    ensures RowsFor(attempts, r, n)[k] == Row(attempts[i].attemptId, attempts[i].generation)
  {
    var init := attempts[..|attempts| - 1];
    if k < |RowsFor(init, r, n)| {
      i := RowIsAttempt(init, r, n, k);
    } else {
      i := |attempts| - 1;
    }
  }

  lemma LiveRow(attempts: seq<Attempt>, r: Id, n: Id, s: RunStep) returns (i: nat)
    requires Booked(attempts, r, n, s) && s.attemptId.Some?
    ensures i < |attempts| && attempts[i].run == r && attempts[i].node == n
    ensures attempts[i].attemptId == s.attemptId.value && attempts[i].generation == s.generation
  {
    i := RowIsAttempt(attempts, r, n, |RowsFor(attempts, r, n)| - 1);
  }

  /** Attempt `a` is recorded for step `n` of run `r`. */
  ghost predicate RecordedFor(attempts: seq<Attempt>, a: Id, r: Id, n: Id) {
    exists i :: 0 <= i < |attempts| && attempts[i].attemptId == a && attempts[i].run == r && attempts[i].node == n
  }

  /** A live attempt id is recorded for its step. */
  lemma LiveAttemptIsRecorded(runs: Runs, attempts: seq<Attempt>, r: Id, n: Id)
    requires StepsBooked(runs, attempts) && HasStep(runs, r, n) && runs[r].steps[n].attemptId.Some?
    ensures RecordedFor(attempts, runs[r].steps[n].attemptId.value, r, n)
  {
    var i := LiveRow(attempts, r, n, runs[r].steps[n]);
  }

  /** An attempt id belongs to one step of one run. */
  lemma AttemptNamesOneStep(attempts: seq<Attempt>, a: Id, r: Id, n: Id, s: Id, m: Id)
    requires DistinctAttempts(attempts) && RecordedFor(attempts, a, r, n) && RecordedFor(attempts, a, s, m)
    ensures r == s && n == m
  {
    var i :| 0 <= i < |attempts| && attempts[i].attemptId == a && attempts[i].run == r && attempts[i].node == n;
    var j :| 0 <= j < |attempts| && attempts[j].attemptId == a && attempts[j].run == s && attempts[j].node == m;
    assert i == j;
  }
}
