/** Every transaction of the run service, seen as one of four moves of the database
    (packages/run-control/service.ts). */
module RunMoves {
  import opened Wrappers
  import opened PipelineModel
  import opened Inspection
  import opened RunModel
  import opened RunInvariants
  import opened RunTransitions
  import opened RunLedger

  /* ---------- quiet transactions ---------- */

  lemma ProgressItself(run: Run)
    ensures Progress(run, run)
  {
  }

  lemma RevisionIsInvisible(before: Run, run: Run, revision: nat)
    requires RunOk(run) && Progress(before, run)
    ensures RunOk(run.(revision := revision)) && Progress(before, run.(revision := revision))
  {
    assert Base(run.(revision := revision));
  }

  /** Updating one run by progress, and noting events of known runs, is quiet. */
  lemma QuietUpdate(a: Database, id: Id, next: Run, attempts: seq<Attempt>, more: seq<Event>)
    requires RunsOk(a.runs) && id in a.runs && Progress(a.runs[id], next) && RunOk(next)
    requires SameRows(a.attempts, attempts) && QuietMore(a.runs, more)
    ensures Quiet(a, Database(a.runs[id := next], attempts, a.events + more))
  {
    var b := a.runs[id := next];
    forall r | r in a.runs ensures Kept(a.runs, b, r) {
      assert RunSound(a.runs, r);
      ProgressItself(a.runs[r]);
    }
    assert QuietEvents(a.runs, a.events, a.events + more);
  }

  lemma SameRowsItself(attempts: seq<Attempt>)
    ensures SameRows(attempts, attempts)
  {
  }

  lemma QuietSilently(a: Database, id: Id, next: Run)
    requires RunsOk(a.runs) && id in a.runs && Progress(a.runs[id], next) && RunOk(next)
    ensures Quiet(a, a.(runs := a.runs[id := next]))
  {
    SameRowsItself(a.attempts);
    QuietUpdate(a, id, next, a.attempts, []);
    assert a.events + [] == a.events;
  }

  lemma QuietNoted(a: Database, id: Id, next: Run, kind: EventKind)
    requires RunsOk(a.runs) && id in a.runs && Progress(a.runs[id], next) && RunOk(next) && !kind.ResumeRequested?
    ensures Quiet(a, Note(a.(runs := a.runs[id := next]), id, kind))
  {
    SameRowsItself(a.attempts);
    QuietUpdate(a, id, next, a.attempts, [Event(id, kind)]);
  }

  lemma StopIsQuiet(db: Database, id: Id, expectedRevision: nat)
    requires RunsOk(db.runs) && MayStop(db, id, expectedRevision)
    ensures Quiet(db, StopRequestedIn(db, id, expectedRevision))
  {
    assert RunSound(db.runs, id);
    StopKeepsRun(db.runs[id]);
    QuietNoted(db, id, StopRequestedOn(db.runs[id]), StopRequested);
  }

  lemma PendingStopIsQuiet(db: Database, id: Id, n: Id)
    requires RunsOk(db.runs) && HasStep(db.runs, id, n)
    requires db.runs[id].state.RunStopping? && db.runs[id].steps[n].attemptId.None? && !TerminalStep(db.runs[id].steps[n])
    ensures Quiet(db, PendingStoppedIn(db, id, n))
  {
    var run := db.runs[id];
    var next := PendingStoppedRun(db, id, n);
    RunOf(db.runs, id);
    EndedStep(run, n, Stopped, run.steps[n].message, run.revision + 1, next);
    QuietNoted(db, id, next, StepStopped);
  }

  lemma EndedStep(run: Run, n: Id, state: StepState, message: Option<Message>, revision: nat, next: Run)
    requires RunOk(run) && n in run.steps && !TerminalStep(run.steps[n]) && state in {Stopped, Failed}
    requires next == Aggregated(SetStep(run, n, run.steps[n].(state := state, message := message)).(revision := revision))
    ensures RunOk(next) && Progress(run, next) && next.revision == revision
  {
    StoppedStepKeepsRun(run, n, state, message, revision);
  }

  lemma PendingStoppedRun(db: Database, id: Id, n: Id) returns (next: Run)
    requires HasStep(db.runs, id, n)
    requires db.runs[id].state.RunStopping? && db.runs[id].steps[n].attemptId.None? && !TerminalStep(db.runs[id].steps[n])
    ensures next == Aggregated(SetStep(db.runs[id], n, db.runs[id].steps[n].(state := Stopped, message := db.runs[id].steps[n].message))
                               .(revision := db.runs[id].revision + 1))
    ensures PendingStoppedIn(db, id, n) == Note(db.(runs := db.runs[id := next]), id, StepStopped)
  {
    next := Aggregated(SetStep(db.runs[id], n, db.runs[id].steps[n].(state := Stopped)).(revision := db.runs[id].revision + 1));
  }

  lemma RunOf(runs: Runs, id: Id)
    requires RunsOk(runs) && id in runs
    ensures RunOk(runs[id]) && runs[id].id == id && Shaped(runs[id])
  {
    assert RunSound(runs, id);
  }

  lemma RejectionIsQuiet(db: Database, t: Ticket, reason: Rejection)
    requires RunsOk(db.runs) && StillCurrent(db, t)
    ensures Quiet(db, RejectedIn(db, t, reason))
  {
    var run := db.runs[t.run.id];
    var state, next := RejectedRun(db, t, reason);
    RunOf(db.runs, t.run.id);
    EndedStep(run, t.node, state, Some(RejectedFor(reason)), run.revision + 1, next);
    QuietNoted(db, t.run.id, next, StepRejected(reason));
  }

  lemma RejectedRun(db: Database, t: Ticket, reason: Rejection) returns (state: StepState, next: Run)
    requires StillCurrent(db, t)
    ensures state in {Stopped, Failed}
    ensures var run := db.runs[t.run.id];
            next == Aggregated(SetStep(run, t.node, run.steps[t.node].(state := state, message := Some(RejectedFor(reason))))
                               .(revision := run.revision + 1))
    ensures RejectedIn(db, t, reason) == Note(db.(runs := db.runs[t.run.id := next]), t.run.id, StepRejected(reason))
  {
    var run := db.runs[t.run.id];
    state := if run.state.RunStopping? then Stopped else Failed;
    next := Aggregated(SetStep(run, t.node, run.steps[t.node].(state := state, message := Some(RejectedFor(reason)))).(revision := run.revision + 1));
  }

  lemma FailureIsQuiet(db: Database, t: Ticket, now: nat)
    requires RunsOk(db.runs) && t.step.attemptId.Some? && StillCurrent(db, t)
    ensures Quiet(db, FailedIn(db, t, now))
  {
    var run := db.runs[t.run.id];
    var revision, next := FailedRun(db, t, now);
    RunOf(db.runs, t.run.id);
    FailureKeepsRun(run, t.node, now, revision);
    QuietSilently(db, t.run.id, next);
  }

  lemma FailedRun(db: Database, t: Ticket, now: nat) returns (revision: nat, next: Run)
    requires StillCurrent(db, t)
    ensures next == SetStep(db.runs[t.run.id], t.node, FailedStep(db.runs[t.run.id].steps[t.node], now)).(revision := revision)
    ensures FailedIn(db, t, now) == db.(runs := db.runs[t.run.id := next])
  {
    var run := db.runs[t.run.id];
    revision := run.revision + (if run.steps[t.node].message != Some(OutcomeUnknown) then 1 else 0);
    next := SetStep(run, t.node, FailedStep(run.steps[t.node], now)).(revision := revision);
  }

  lemma {:induction false} ObservationKeepsRows(attempts: seq<Attempt>, a: Id, o: Observation)
    ensures SameRows(attempts, WithObservation(attempts, a, o))
  {
    if attempts != [] && attempts[0].attemptId != a {
      ObservationKeepsRows(attempts[1..], a, o);
      var next := WithObservation(attempts, a, o);
      forall i | 0 <= i < |attempts| ensures SameRow(attempts[i], next[i]) {
        if i > 0 {
          assert SameRow(attempts[1..][i - 1], WithObservation(attempts[1..], a, o)[i - 1]);
        }
      }
    }
  }

  lemma SeenEventsAreQuiet(runs: Runs, id: Id, current: RunStep, next: RunStep)
    requires id in runs
    ensures QuietMore(runs, SeenEvents(id, current, next))
  {
  }

  lemma AbsenceIsQuiet(db: Database, id: Id, n: Id, now: nat)
    requires RunsOk(db.runs) && HasStep(db.runs, id, n)
    requires !TerminalStep(db.runs[id].steps[n]) && db.runs[id].steps[n].attemptId.Some?
    ensures var next := db.(runs := db.runs[id := AbsentRun(db.runs[id], n, now)]);
            Quiet(db, next) && Quiet(db, Note(next, id, StepStopped))
  {
    assert RunSound(db.runs, id);
    AbsentKeepsRun(db.runs[id], n, now);
    QuietSilently(db, id, AbsentRun(db.runs[id], n, now));
    QuietNoted(db, id, AbsentRun(db.runs[id], n, now), StepStopped);
  }

  lemma SightingIsQuiet(world: World, db: Database, t: Ticket, o: Observation, changeFailed: bool, now: nat)
    requires RunsOk(db.runs) && StillCurrent(db, t) && SameGeneration(db, t) && t.step.attemptId.Some?
    requires o.Seen? && Reportable(o) && Some(o.attemptId) == t.step.attemptId && o.generation == t.step.generation
    ensures Quiet(db, CommittedIn(world, db, t, o, changeFailed, now))
  {
    var run := db.runs[t.run.id];
    var current := run.steps[t.node];
    assert RunSound(db.runs, t.run.id);
    var next := ObservedStep(current, t.step, o, changeFailed, DeclaredOutputs(world.catalog, run.graph, t.node), run.state.RunStopping?, now);
    SeenKeepsRun(world, run, t, o, changeFailed, now);
    ObservationKeepsRows(db.attempts, o.attemptId, o);
    SeenEventsAreQuiet(db.runs, t.run.id, current, next);
    QuietUpdate(db, t.run.id, SeenRun(world, run, t, o, changeFailed, now), WithObservation(db.attempts, o.attemptId, o),
                SeenEvents(t.run.id, current, next));
  }

  /* ---------- the other commands ---------- */

  lemma ResumeMoves(db: Database, id: Id, expectedRevision: nat)
    requires RunsOk(db.runs) && MayResume(db, id, expectedRevision)
    ensures ResumeIn(db, ResumedIn(db, id, expectedRevision), id)
  {
    assert RunSound(db.runs, id);
    ResumeKeepsRun(db.runs[id]);
  }

  lemma StartMoves(world: World, db: Database, id: Id, workspace: Id, graphRevision: nat, g: Graph, actor: Id,
                   capabilities: map<Id, Capabilities>, fingerprint: Id)
    requires id !in db.runs && Executable(world.catalog, g)
    requires !exists k :: k in db.runs && DuplicateOf(world, db.runs[k], workspace, actor, g.id, graphRevision, fingerprint)
    ensures NewRunIn(db, Started(world, db, id, workspace, graphRevision, g, actor, capabilities, fingerprint), id)
  {
    ExecutableGraphOk(world, g, capabilities);
    NewRunIsUnstarted(world, id, workspace, graphRevision, g, actor, capabilities);
    var run := NewRun(world, id, workspace, graphRevision, g, actor, capabilities);
    NameIsInvisible(run, fingerprint);
    NewRunNoted(db, id, run.(fingerprint := Some(fingerprint)), Accepted);
  }

  lemma NewRunNoted(db: Database, id: Id, run: Run, kind: EventKind)
    requires id !in db.runs && run.id == id && Shaped(run) && Unstarted(run) && !kind.ResumeRequested?
    ensures NewRunIn(db, Note(db.(runs := db.runs[id := run]), id, kind), id)
  {
    assert db.runs[id := run][id] == run;
  }

  lemma NameIsInvisible(run: Run, fingerprint: Id)
    requires Unstarted(run)
    ensures Unstarted(run.(fingerprint := Some(fingerprint)))
  {
    assert Base(run.(fingerprint := Some(fingerprint)));
  }

  /** Accepting a change online is quiet. */
  lemma OnlineMoves(world: World, db: Database, p: Preview, changeId: Id, branchId: Id, actor: Id)
    requires RunsOk(db.runs) && p.run in db.runs && p.mode.Online?
    requires Previewed(world, db.runs[p.run], p.revision, p.node, p.config) == Success(p)
    ensures Quiet(db, ChangedIn(world, db, p.run, p, changeId, branchId, actor))
  {
    var run := db.runs[p.run];
    OnlineIsRunning(world, run, p);
    RunOf(db.runs, p.run);
    OnlineKeepsRun(run, p.node, p.config, changeId);
    QuietNoted(db, p.run, OnlineRun(run, p.node, p.config, changeId), ChangeRequested);
    OnlineChange(world, db, p, changeId, branchId, actor);
  }

  lemma OnlineChange(world: World, db: Database, p: Preview, changeId: Id, branchId: Id, actor: Id)
    requires p.run in db.runs && p.mode.Online?
    requires Previewed(world, db.runs[p.run], p.revision, p.node, p.config) == Success(p)
    ensures p.node in db.runs[p.run].steps
    ensures ChangedIn(world, db, p.run, p, changeId, branchId, actor)
            == Note(db.(runs := db.runs[p.run := OnlineRun(db.runs[p.run], p.node, p.config, changeId)]), p.run, ChangeRequested)
  {
  }

  lemma OnlineIsRunning(world: World, run: Run, p: Preview)
    requires Previewed(world, run, p.revision, p.node, p.config) == Success(p) && p.mode.Online?
    ensures p.node in run.steps && run.steps[p.node].state.Running?
  {
  }

  lemma BranchMoves(world: World, db: Database, p: Preview, branchId: Id, actor: Id)
    requires RunsOk(db.runs) && branchId !in db.runs && p.run in db.runs
    requires Previewed(world, db.runs[p.run], p.revision, p.node, p.config) == Success(p) && (p.mode.Branch? || p.mode.CheckpointBranch?)
    ensures NewRunIn(db, Note(db.(runs := db.runs[branchId := BranchRun(world, db.runs[p.run], p, branchId, actor)]), branchId, Branched), branchId)
  {
    var run := db.runs[p.run];
    assert RunSound(db.runs, p.run);
    BranchIsUnstarted(world, run, p, branchId, actor);
    BranchIsShaped(world, run, p, branchId, actor);
    NewRunNoted(db, branchId, BranchRun(world, run, p, branchId, actor), Branched);
  }

  lemma BranchIsShaped(world: World, run: Run, p: Preview, id: Id, actor: Id)
    requires UniqueIds(run.graph.nodes) && OneSourcePerInput(run.graph.edges)
    ensures BranchRun(world, run, p, id, actor).id == id && Shaped(BranchRun(world, run, p, id, actor))
  {
    BranchGraphKeepsIds(run, p.node, p.config);
  }

  /* ---------- the prepare transaction ---------- */

  /** A ticket is a snapshot of an unfinished step with an attempt, and of its run. */
  ghost predicate IsTicket(runs: Runs, t: Ticket, id: Id, n: Id) {
    && HasStep(runs, id, n) && t.node == n && t.run == runs[id] && t.run.id == id && t.step == t.run.steps[n]
    && t.step.attemptId.Some? && !TerminalStep(t.step) && StepOk(t.step)
  }

  lemma PreparedStop(db: Database, id: Id, n: Id, a: Id, now: nat)
    requires RunsOk(db.runs) && HasStep(db.runs, id, n)
    requires db.runs[id].state.RunStopping? && db.runs[id].steps[n].attemptId.None?
    requires !TerminalStep(db.runs[id].steps[n]) && !Later(db.runs[id].steps[n].nextPollAt, now)
    ensures Quiet(db, PreparedIn(db, id, n, a, now).db) && PreparedIn(db, id, n, a, now).ticket.None?
  {
    var run := db.runs[id];
    var next := PreparedStopRun(db, id, n, a, now);
    RunOf(db.runs, id);
    EndedStep(run, n, Stopped, run.steps[n].message, run.revision, next);
    RevisionIsInvisible(run, next, next.revision + 1);
    QuietSilently(db, id, next.(revision := next.revision + 1));
  }

  lemma PreparedStopRun(db: Database, id: Id, n: Id, a: Id, now: nat) returns (next: Run)
    requires HasStep(db.runs, id, n)
    requires db.runs[id].state.RunStopping? && db.runs[id].steps[n].attemptId.None?
    requires !TerminalStep(db.runs[id].steps[n]) && !Later(db.runs[id].steps[n].nextPollAt, now)
    ensures next == Aggregated(SetStep(db.runs[id], n, db.runs[id].steps[n].(state := Stopped, message := db.runs[id].steps[n].message))
                               .(revision := db.runs[id].revision))
    ensures PreparedIn(db, id, n, a, now) == Prepared(db.(runs := db.runs[id := next.(revision := next.revision + 1)]), None)
  {
    next := Aggregated(SetStep(db.runs[id], n, db.runs[id].steps[n].(state := Stopped)));
  }

  lemma PreparedDispatch(db: Database, id: Id, n: Id, a: Id, now: nat)
    requires RunsOk(db.runs) && HasStep(db.runs, id, n)
    requires forall i :: 0 <= i < |db.attempts| ==> db.attempts[i].attemptId != a
    requires MayDispatch(db, id, n, now)
    ensures var p := PreparedIn(db, id, n, a, now);
            && DispatchIn(db, p.db, id, n, a)
            && p.ticket.Some? && p.ticket.value.step.attemptId == Some(a) && IsTicket(p.db.runs, p.ticket.value, id, n)
  {
    var next := Dispatched(db.runs[id], n, a);
    RunOf(db.runs, id);
    DispatchKeepsRun(db.runs[id], n, a);
    PreparedDispatchRun(db, id, n, a, now);
    DispatchedRow(db, id, n, a, next);
    DispatchTicket(db.runs[id := next], Ticket(next, n, next.steps[n]), id, n, a);
  }

  ghost predicate MayDispatch(db: Database, id: Id, n: Id, now: nat)
    requires HasStep(db.runs, id, n)
  {
    var step := db.runs[id].steps[n];
    && step.state.Pending? && !db.runs[id].state.RunStopping? && !Later(step.nextPollAt, now) && !Later(step.nextAttemptAt, now)
    && Ready(db.runs[id].graph.edges, db.runs[id].steps, n)
  }

  lemma PreparedDispatchRun(db: Database, id: Id, n: Id, a: Id, now: nat)
    requires HasStep(db.runs, id, n) && MayDispatch(db, id, n, now)
    ensures var next := Dispatched(db.runs[id], n, a);
            PreparedIn(db, id, n, a, now)
            == Prepared(Database(db.runs[id := next], db.attempts + [Attempt(id, n, a, next.steps[n].generation, None)],
                                 db.events + [Event(id, DispatchIntent)]),
                        Some(Ticket(next, n, next.steps[n])))
  {
  }

  lemma DispatchedRow(db: Database, id: Id, n: Id, a: Id, next: Run)
    requires HasStep(db.runs, id, n) && DispatchOf(db.runs[id], next, n, a) && RunOk(next)
    requires forall i :: 0 <= i < |db.attempts| ==> db.attempts[i].attemptId != a
    ensures DispatchIn(db, Database(db.runs[id := next], db.attempts + [Attempt(id, n, a, next.steps[n].generation, None)],
                                    db.events + [Event(id, DispatchIntent)]), id, n, a)
  {
    assert db.runs[id := next][id] == next;
  }

  lemma DispatchTicket(runs: Runs, t: Ticket, id: Id, n: Id, a: Id)
    requires id in runs && runs[id] == t.run && t.run.id == id && RunOk(t.run) && n in t.run.steps && t.node == n && t.step == t.run.steps[n]
    requires t.step.attemptId == Some(a) && t.step.state.Dispatching?
    ensures IsTicket(runs, t, id, n)
  {
  }
}
