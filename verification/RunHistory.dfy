/** What no transaction of the run service can undo (packages/run-control/service.ts): outputs of succeeded steps,
    recorded attempts, a stop request, and the end of an attempt. */
module RunHistory {
  import opened Wrappers
  import opened PipelineModel
  import opened Inspection
  import opened RunModel
  import opened RunInvariants
  import opened RunTransitions
  import opened RunLedger
  import opened RunMoves

  /** Attempt `x` is the unfinished attempt of step `n` of run `r`. */
  predicate Live(runs: Runs, r: Id, n: Id, x: Id) {
    HasStep(runs, r, n) && runs[r].steps[n].attemptId == Some(x) && !TerminalStep(runs[r].steps[n])
  }

  predicate StoppingRun(runs: Runs, r: Id) {
    r in runs && runs[r].state.RunStopping?
  }

  predicate DispatchingStep(runs: Runs, r: Id, n: Id) {
    HasStep(runs, r, n) && runs[r].steps[n].state.Dispatching?
  }

  /** An attempt live in `b` was live in `a`; its run did not leave stopping, and it did not return to dispatching. */
  predicate LiveFrom(a: Runs, b: Runs, r: Id, n: Id, x: Id) {
    && Live(a, r, n, x)
    && (StoppingRun(a, r) ==> StoppingRun(b, r))
    && (DispatchingStep(b, r, n) ==> DispatchingStep(a, r, n))
  }

  ghost predicate LivesFrom(a: Runs, b: Runs, dispatched: Option<Id>) {
    forall r, n, x :: Live(b, r, n, x) && Some(x) != dispatched ==> LiveFrom(a, b, r, n, x)
  }

  predicate OutputLasts(a: Runs, b: Runs, r: Id, n: Id) {
    && HasStep(a, r, n) && HasStep(b, r, n)
    && (a[r].steps[n].state.Succeeded? ==> b[r].steps[n].state.Succeeded? && b[r].steps[n].outputs == a[r].steps[n].outputs)
  }

  ghost predicate OutputsLast(a: Runs, b: Runs) {
    forall r, n :: HasStep(a, r, n) ==> OutputLasts(a, b, r, n)
  }

  predicate SameGenerations(a: Run, b: Run) {
    forall n :: n in a.steps ==> n in b.steps && b.steps[n].generation == a.steps[n].generation
  }

  predicate StopHolds(a: Runs, b: Runs, r: Id) {
    && r in a && r in b
    && (b[r].state.RunStopping? || b[r].state.RunStopped?) && SameGenerations(a[r], b[r])
  }

  predicate StoppedRun(runs: Runs, r: Id) {
    r in runs && runs[r].state.RunStopped?
  }

  /** Stopping ends in stopped only, and nothing else does. */
  ghost predicate StopsHold(a: Runs, b: Runs) {
    && (forall r :: StoppingRun(a, r) ==> StopHolds(a, b, r))
    && (forall r :: StoppedRun(b, r) ==> StoppingRun(a, r) || StoppedRun(a, r))
  }

  ghost predicate RecordsLast(a: seq<Attempt>, b: seq<Attempt>) {
    |a| <= |b| && forall i :: 0 <= i < |a| ==> SameRow(a[i], b[i])
  }

  /** One transaction, dispatching at most the attempt `dispatched`. */
  ghost predicate Moves(a: Database, b: Database, dispatched: Option<Id>) {
    && DbOk(b) && RecordsLast(a.attempts, b.attempts)
    && LivesFrom(a.runs, b.runs, dispatched) && OutputsLast(a.runs, b.runs) && StopsHold(a.runs, b.runs)
  }

  lemma MovesItself(a: Database)
    requires DbOk(a)
    ensures Moves(a, a, None)
  {
    forall r | StoppingRun(a.runs, r) ensures StopHolds(a.runs, a.runs, r) {
    }
  }

  /* ---------- quiet transactions ---------- */

  lemma QuietLives(a: Runs, b: Runs, r: Id, n: Id, x: Id)
    requires QuietRuns(a, b) && Live(b, r, n, x)
    ensures LiveFrom(a, b, r, n, x)
  {
    assert Kept(a, b, r);
    assert StepProgress(a[r].steps[n], b[r].steps[n]);
  }

  lemma QuietStop(a: Runs, b: Runs, r: Id)
    requires QuietRuns(a, b) && StoppingRun(a, r)
    ensures StopHolds(a, b, r)
  {
    assert Kept(a, b, r);
    forall n | n in a[r].steps ensures b[r].steps[n].generation == a[r].steps[n].generation {
      assert StepProgress(a[r].steps[n], b[r].steps[n]);
    }
  }

  lemma QuietOutput(a: Runs, b: Runs, r: Id, n: Id)
    requires QuietRuns(a, b) && HasStep(a, r, n)
    ensures OutputLasts(a, b, r, n)
  {
    assert Kept(a, b, r);
    assert StepProgress(a[r].steps[n], b[r].steps[n]);
  }

  lemma QuietMoves(a: Database, b: Database)
    requires DbOk(a) && Quiet(a, b)
    ensures Moves(a, b, None)
  {
    QuietKeepsDb(a, b);
    QuietKeepsHistory(a.runs, b.runs);
  }

  lemma QuietKeepsHistory(a: Runs, b: Runs)
    requires QuietRuns(a, b)
    ensures LivesFrom(a, b, None) && OutputsLast(a, b) && StopsHold(a, b)
  {
    forall r, n, x | Live(b, r, n, x) ensures LiveFrom(a, b, r, n, x) {
      QuietLives(a, b, r, n, x);
    }
    forall r, n | HasStep(a, r, n) ensures OutputLasts(a, b, r, n) {
      QuietOutput(a, b, r, n);
    }
    forall r | StoppingRun(a, r) ensures StopHolds(a, b, r) {
      QuietStop(a, b, r);
    }
    forall r | StoppedRun(b, r) ensures StoppingRun(a, r) || StoppedRun(a, r) {
      assert Kept(a, b, r);
    }
  }

  /* ---------- dispatch, resume, new run ---------- */

  lemma DispatchHistory(a: Runs, b: Runs, id: Id, n: Id, x: Id)
    requires OneRun(a, b, id) && DispatchOf(a[id], b[id], n, x) && !b[id].state.RunStopped?
    ensures LivesFrom(a, b, Some(x)) && OutputsLast(a, b) && StopsHold(a, b)
  {
    forall r, m, y | Live(b, r, m, y) && y != x ensures LiveFrom(a, b, r, m, y) {
    }
    forall r, m | HasStep(a, r, m) ensures OutputLasts(a, b, r, m) {
    }
    forall r | StoppingRun(a, r) ensures StopHolds(a, b, r) {
    }
  }

  lemma DispatchMoves(a: Database, b: Database, id: Id, n: Id, x: Id)
    requires DbOk(a) && DispatchIn(a, b, id, n, x)
    ensures Moves(a, b, Some(x))
  {
    DispatchKeepsDb(a, b, id, n, x);
    DispatchHistory(a.runs, b.runs, id, n, x);
  }

  lemma ResumedStepHistory(a: Run, b: Run, n: Id)
    requires ResumeOf(a, b) && n in a.steps
    ensures TerminalStep(b.steps[n]) || b.steps[n].attemptId.None?
    ensures a.steps[n].state.Succeeded? ==> b.steps[n] == a.steps[n]
  {
    assert Resumption(a.steps[n], b.steps[n]);
  }

  lemma ResumeHistory(a: Runs, b: Runs, id: Id)
    requires OneRun(a, b, id) && ResumeOf(a[id], b[id]) && !a[id].state.RunStopping? && !b[id].state.RunStopped?
    ensures LivesFrom(a, b, None) && OutputsLast(a, b) && StopsHold(a, b)
  {
    forall r, m, y | Live(b, r, m, y) ensures LiveFrom(a, b, r, m, y) {
      if r == id {
        ResumedStepHistory(a[id], b[id], m);
      }
    }
    forall r, m | HasStep(a, r, m) ensures OutputLasts(a, b, r, m) {
      if r == id {
        ResumedStepHistory(a[id], b[id], m);
      }
    }
    forall r | StoppingRun(a, r) ensures StopHolds(a, b, r) {
    }
  }

  lemma ResumableIsNotStopping(runs: Runs, id: Id)
    requires RunsOk(runs) && id in runs && AllTerminal(runs[id].steps)
    ensures !runs[id].state.RunStopping?
  {
    RunOf(runs, id);
  }

  lemma ResumesMove(a: Database, b: Database, id: Id)
    requires DbOk(a) && ResumeIn(a, b, id)
    ensures Moves(a, b, None)
  {
    ResumeKeepsDb(a, b, id);
    ResumableIsNotStopping(a.runs, id);
    ResumeHistory(a.runs, b.runs, id);
  }

  lemma NewRunHistory(a: Runs, b: Runs, id: Id)
    requires id !in a && id in b && b == a[id := b[id]]
    requires forall n :: n in b[id].steps ==> NeverDispatched(b[id].steps[n])
    requires !b[id].state.RunStopped?
    ensures LivesFrom(a, b, None) && OutputsLast(a, b) && StopsHold(a, b)
  {
    forall m, y ensures !Live(b, id, m, y) {
      assert m in b[id].steps ==> NeverDispatched(b[id].steps[m]);
    }
    forall r, m, y | Live(b, r, m, y) ensures LiveFrom(a, b, r, m, y) {
    }
    forall r, m | HasStep(a, r, m) ensures OutputLasts(a, b, r, m) {
    }
    forall r | StoppingRun(a, r) ensures StopHolds(a, b, r) {
    }
  }

  lemma NewRunMoves(a: Database, b: Database, id: Id)
    requires DbOk(a) && NewRunIn(a, b, id)
    ensures Moves(a, b, None)
  {
    NewRunKeepsDb(a, b, id);
    NewRunHistory(a.runs, b.runs, id);
  }

  /* ---------- the transactions of the service ---------- */

  lemma StartMove(world: World, db: Database, id: Id, workspace: Id, graphRevision: nat, g: Graph, actor: Id,
                  capabilities: map<Id, Capabilities>, fingerprint: Id)
    requires DbOk(db) && id !in db.runs && Executable(world.catalog, g)
    ensures Moves(db, Started(world, db, id, workspace, graphRevision, g, actor, capabilities, fingerprint), None)
  {
    if exists k :: k in db.runs && DuplicateOf(world, db.runs[k], workspace, actor, g.id, graphRevision, fingerprint) {
      MovesItself(db);
    } else {
      StartMoves(world, db, id, workspace, graphRevision, g, actor, capabilities, fingerprint);
      NewRunMoves(db, Started(world, db, id, workspace, graphRevision, g, actor, capabilities, fingerprint), id);
    }
  }

  lemma StopMove(db: Database, id: Id, expectedRevision: nat)
    requires DbOk(db)
    ensures Moves(db, StopRequestedIn(db, id, expectedRevision), None)
  {
    if MayStop(db, id, expectedRevision) {
      StopIsQuiet(db, id, expectedRevision);
      QuietMoves(db, StopRequestedIn(db, id, expectedRevision));
    } else {
      MovesItself(db);
    }
  }

  lemma ResumeMove(db: Database, id: Id, expectedRevision: nat)
    requires DbOk(db)
    ensures Moves(db, ResumedIn(db, id, expectedRevision), None)
  {
    if MayResume(db, id, expectedRevision) {
      ResumeMoves(db, id, expectedRevision);
      ResumesMove(db, ResumedIn(db, id, expectedRevision), id);
    } else {
      MovesItself(db);
    }
  }

  /** The change is one the run would preview now, and it is not refused. */
  ghost predicate MayChange(world: World, db: Database, p: Preview) {
    && p.run in db.runs && !p.mode.Refused?
    && Previewed(world, db.runs[p.run], p.revision, p.node, p.config) == Success(p)
  }

  lemma RefusedChange(world: World, db: Database, p: Preview, changeId: Id, branchId: Id, actor: Id)
    requires !MayChange(world, db, p)
    ensures ChangedIn(world, db, p.run, p, changeId, branchId, actor) == db
  {
  }

  lemma BranchChange(world: World, db: Database, p: Preview, changeId: Id, branchId: Id, actor: Id)
    requires MayChange(world, db, p) && !p.mode.Online?
    ensures ChangedIn(world, db, p.run, p, changeId, branchId, actor)
            == Note(db.(runs := db.runs[branchId := BranchRun(world, db.runs[p.run], p, branchId, actor)]), branchId, Branched)
  {
  }

  lemma ChangeMove(world: World, db: Database, p: Preview, changeId: Id, branchId: Id, actor: Id)
    requires DbOk(db) && branchId !in db.runs
    ensures Moves(db, ChangedIn(world, db, p.run, p, changeId, branchId, actor), None)
  {
    var next := ChangedIn(world, db, p.run, p, changeId, branchId, actor);
    if !MayChange(world, db, p) {
      RefusedChange(world, db, p, changeId, branchId, actor);
      MovesItself(db);
    } else if p.mode.Online? {
      OnlineMoves(world, db, p, changeId, branchId, actor);
      QuietMoves(db, next);
    } else {
      BranchMoves(world, db, p, branchId, actor);
      BranchChange(world, db, p, changeId, branchId, actor);
      NewRunMoves(db, next, branchId);
    }
  }

  lemma PendingStopMove(db: Database, id: Id, n: Id)
    requires DbOk(db) && HasStep(db.runs, id, n)
    ensures Moves(db, PendingStoppedIn(db, id, n), None)
  {
    if db.runs[id].state.RunStopping? && db.runs[id].steps[n].attemptId.None? && !TerminalStep(db.runs[id].steps[n]) {
      PendingStopIsQuiet(db, id, n);
      QuietMoves(db, PendingStoppedIn(db, id, n));
    } else {
      MovesItself(db);
    }
  }

  lemma RejectionMove(db: Database, t: Ticket, reason: Rejection)
    requires DbOk(db)
    ensures Moves(db, RejectedIn(db, t, reason), None)
  {
    if StillCurrent(db, t) {
      RejectionIsQuiet(db, t, reason);
      QuietMoves(db, RejectedIn(db, t, reason));
    } else {
      MovesItself(db);
    }
  }

  lemma FailureMove(db: Database, t: Ticket, now: nat)
    requires DbOk(db) && t.step.attemptId.Some?
    ensures Moves(db, FailedIn(db, t, now), None)
  {
    if StillCurrent(db, t) {
      FailureIsQuiet(db, t, now);
      QuietMoves(db, FailedIn(db, t, now));
    } else {
      MovesItself(db);
    }
  }

  /** The observation counts: the attempt is unfinished and of the same generation. */
  predicate Counts(db: Database, t: Ticket, o: Observation) {
    && StillCurrent(db, t) && SameGeneration(db, t)
    && (o.Seen? ==> Some(o.attemptId) == t.step.attemptId && o.generation == t.step.generation)
  }

  lemma IgnoredCommit(world: World, db: Database, t: Ticket, o: Observation, changeFailed: bool, now: nat)
    requires !Counts(db, t, o)
    ensures CommittedIn(world, db, t, o, changeFailed, now) == db
  {
  }

  lemma AbsentCommit(world: World, db: Database, t: Ticket, changeFailed: bool, now: nat)
    requires Counts(db, t, Absent)
    ensures var next := db.(runs := db.runs[t.run.id := AbsentRun(db.runs[t.run.id], t.node, now)]);
            CommittedIn(world, db, t, Absent, changeFailed, now)
            == if db.runs[t.run.id].state.RunStopping? then Note(next, t.run.id, StepStopped) else next
  {
  }

  lemma CommitMove(world: World, db: Database, t: Ticket, o: Observation, changeFailed: bool, now: nat)
    requires DbOk(db) && t.step.attemptId.Some? && Reportable(o)
    ensures Moves(db, CommittedIn(world, db, t, o, changeFailed, now), None)
  {
    if !Counts(db, t, o) {
      IgnoredCommit(world, db, t, o, changeFailed, now);
      MovesItself(db);
    } else if o.Absent? {
      AbsenceIsQuiet(db, t.run.id, t.node, now);
      AbsentCommit(world, db, t, changeFailed, now);
      QuietMoves(db, CommittedIn(world, db, t, o, changeFailed, now));
    } else {
      SightingIsQuiet(world, db, t, o, changeFailed, now);
      QuietMoves(db, CommittedIn(world, db, t, o, changeFailed, now));
    }
  }

  /* ---------- preparing an advance ---------- */

  /** The prepare transaction, its ticket if any, and how the ticket's step got its attempt. */
  lemma PrepareMove(db: Database, id: Id, n: Id, a: Id, now: nat)
    requires DbOk(db) && HasStep(db.runs, id, n)
    requires forall i :: 0 <= i < |db.attempts| ==> db.attempts[i].attemptId != a
    ensures var p := PreparedIn(db, id, n, a, now);
            && (p.ticket.None? ==> Moves(db, p.db, None))
            && (p.ticket.Some? ==> IsTicket(p.db.runs, p.ticket.value, id, n))
            && (p.ticket.Some? && p.ticket.value.step.attemptId != Some(a) ==> p.db == db)
            && (p.ticket.Some? && p.ticket.value.step.attemptId == Some(a) ==> Moves(db, p.db, Some(a)))
  {
    var run := db.runs[id];
    var step := run.steps[n];
    StepOf(db.runs, id, n);
    if TerminalStep(step) || Later(step.nextPollAt, now) {
      MovesItself(db);
    } else if run.state.RunStopping? && step.attemptId.None? {
      PreparedStop(db, id, n, a, now);
      QuietMoves(db, PreparedIn(db, id, n, a, now).db);
    } else if !step.state.Pending? {
      LiveAttemptIsOld(db, id, n, a);
      ObservingTicket(db, id, n, a, now);
      MovesItself(db);
    } else if Later(step.nextAttemptAt, now) {
      MovesItself(db);
    } else if Ready(run.graph.edges, run.steps, n) {
      PreparedDispatch(db, id, n, a, now);
      DispatchMoves(db, PreparedIn(db, id, n, a, now).db, id, n, a);
    } else {
      RunOf(db.runs, id);
      WaitKeepsRun(run, n);
      QuietSilently(db, id, SetStep(run, n, step.(nextAttemptAt := None)));
      QuietMoves(db, PreparedIn(db, id, n, a, now).db);
    }
  }

  lemma StepOf(runs: Runs, r: Id, n: Id)
    requires RunsOk(runs) && HasStep(runs, r, n)
    ensures StepOk(runs[r].steps[n]) && runs[r].id == r
  {
    assert RunSound(runs, r);
  }

  lemma LiveAttemptIsOld(db: Database, id: Id, n: Id, a: Id)
    requires DbOk(db) && HasStep(db.runs, id, n)
    requires forall i :: 0 <= i < |db.attempts| ==> db.attempts[i].attemptId != a
    ensures db.runs[id].steps[n].attemptId != Some(a)
  {
    if db.runs[id].steps[n].attemptId == Some(a) {
      LiveAttemptIsRecorded(db.runs, db.attempts, id, n);
    }
  }

  lemma ObservingTicket(db: Database, id: Id, n: Id, a: Id, now: nat)
    requires HasStep(db.runs, id, n) && StepOk(db.runs[id].steps[n]) && db.runs[id].id == id
    requires var step := db.runs[id].steps[n]; !TerminalStep(step) && !Later(step.nextPollAt, now) && !step.state.Pending?
    ensures PreparedIn(db, id, n, a, now) == Prepared(db, Some(Ticket(db.runs[id], n, db.runs[id].steps[n])))
    ensures IsTicket(db.runs, Ticket(db.runs[id], n, db.runs[id].steps[n]), id, n)
  {
  }
}
