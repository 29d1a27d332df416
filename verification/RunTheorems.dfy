/** What holds of every run of the coordinator, whatever users, adapters and clocks do
    (packages/run-control/service.ts). */
module RunTheorems {
  import opened Wrappers
  import opened PipelineModel
  import opened Inspection
  import opened RunModel
  import opened RunInvariants
  import opened RunLedger
  import opened RunMoves
  import opened RunHistory
  import opened RunMachine
  import opened RunSafety

  /** The stored database after a sequence of actions. */
  ghost function After(world: World, actions: seq<Action>): Database {
    RunAll(world, actions).db
  }

  lemma AfterIsOk(world: World, actions: seq<Action>)
    ensures DbOk(After(world, actions))
  {
    RunsAreSound(world, actions);
  }

  /* ---------- starts ---------- */

  /** `adapter.start(a)` is called only after a lookup of `a` in the same advance said absent, never after
      `adapter.stop(a)`, and never after a sighting of `a` was committed. */
  lemma StartsFollowAbsence(world: World, actions: seq<Action>, k: nat)
    requires k < |RunAll(world, actions).trace| && RunAll(world, actions).trace[k].StartCall?
    ensures var trace := RunAll(world, actions).trace;
            var a := trace[k].attempt;
            && (exists j :: 0 <= j < k && trace[j] == LookupCall(a, true) && forall i :: j < i < k ==> !trace[i].Begin?)
            && (forall i :: 0 <= i < k ==> trace[i] != StopCall(a) && trace[i] != CommitSeen(a))
  {
    var trace := RunAll(world, actions).trace;
    var a := trace[k].attempt;
    RunsAreSound(world, actions);
    assert StartsSafe(trace);
    SafeStartMeans(trace, k, a);
  }

  lemma SafeStartMeans(trace: Trace, k: nat, a: Id)
    requires k < |trace| && SafeToStart(trace[..k], a)
    ensures exists j :: 0 <= j < k && trace[j] == LookupCall(a, true) && forall i :: j < i < k ==> !trace[i].Begin?
    ensures forall i :: 0 <= i < k ==> trace[i] != StopCall(a) && trace[i] != CommitSeen(a)
  {
    var before := trace[..k];
    assert forall i :: 0 <= i < k ==> before[i] == trace[i];
    var j :| 0 <= j < |before| && before[j] == LookupCall(a, true) && forall i :: j < i < |before| ==> !before[i].Begin?;
    forall i | j < i < k ensures !trace[i].Begin? {
      assert !before[i].Begin?;
    }
    forall i | 0 <= i < k ensures trace[i] != StopCall(a) && trace[i] != CommitSeen(a) {
      assert before[i] in before;
    }
  }

  /* ---------- what no action undoes ---------- */

  ghost predicate Lasts(a: Database, b: Database) {
    RecordsLast(a.attempts, b.attempts) && OutputsLast(a.runs, b.runs) && StopsHold(a.runs, b.runs)
  }

  lemma MovesLast(a: Database, b: Database, dispatched: Option<Id>)
    requires Moves(a, b, dispatched)
    ensures Lasts(a, b)
  {
  }

  lemma NothingLasts(a: Database)
    requires DbOk(a)
    ensures Lasts(a, a)
  {
    MovesItself(a);
    MovesLast(a, a, None);
  }

  lemma StartLasts(world: World, m: Machine, action: Action)
    requires DbOk(m.db) && action.Start?
    ensures Lasts(m.db, Apply(world, m, action).db)
  {
    if action.id !in m.db.runs && Executable(world.catalog, action.graph) {
      StartMove(world, m.db, action.id, action.workspace, action.graphRevision, action.graph, action.actor, action.capabilities, action.fingerprint);
      MovesLast(m.db, Apply(world, m, action).db, None);
    } else {
      NothingLasts(m.db);
    }
  }

  lemma CommandLasts(world: World, m: Machine, action: Action)
    requires DbOk(m.db) && (action.Stop? || action.Resume? || action.Change?)
    ensures Lasts(m.db, Apply(world, m, action).db)
  {
    if action.Stop? {
      StopMove(m.db, action.id, action.expectedRevision);
      MovesLast(m.db, StopRequestedIn(m.db, action.id, action.expectedRevision), None);
    } else if action.Resume? {
      ResumeMove(m.db, action.id, action.expectedRevision);
      MovesLast(m.db, ResumedIn(m.db, action.id, action.expectedRevision), None);
    } else if action.branchId !in m.db.runs {
      ChangeMove(world, m.db, action.expected, action.changeId, action.branchId, action.actor);
      MovesLast(m.db, Apply(world, m, action).db, None);
    } else {
      NothingLasts(m.db);
    }
  }

  lemma PrepareLasts(world: World, m: Machine, id: Id, n: Id, a: Id, now: nat)
    requires DbOk(m.db)
    ensures Lasts(m.db, Apply(world, m, Prepare(id, n, a, now)).db)
  {
    if m.flight.None? && HasStep(m.db.runs, id, n) && !UsedAttempt(m.db, a) {
      UnusedIsUnrecorded(m.db, a);
      PreparationLasts(m.db, id, n, a, now);
      PrepareIs(world, m, id, n, a, now);
    } else {
      NothingPrepared(world, m, id, n, a, now);
      NothingLasts(m.db);
    }
  }

  lemma NothingPrepared(world: World, m: Machine, id: Id, n: Id, a: Id, now: nat)
    requires m.flight.Some? || !HasStep(m.db.runs, id, n) || UsedAttempt(m.db, a)
    ensures Apply(world, m, Prepare(id, n, a, now)) == m
  {
  }

  lemma PreparationLasts(db: Database, id: Id, n: Id, a: Id, now: nat)
    requires DbOk(db) && HasStep(db.runs, id, n)
    requires forall i :: 0 <= i < |db.attempts| ==> db.attempts[i].attemptId != a
    ensures Lasts(db, PreparedIn(db, id, n, a, now).db)
  {
    var p := PreparedIn(db, id, n, a, now);
    PrepareMove(db, id, n, a, now);
    if p.ticket.None? {
      MovesLast(db, p.db, None);
    } else if p.ticket.value.step.attemptId == Some(a) {
      MovesLast(db, p.db, Some(a));
    } else {
      NothingLasts(db);
    }
  }

  lemma PrepareIs(world: World, m: Machine, id: Id, n: Id, a: Id, now: nat)
    requires m.flight.None? && HasStep(m.db.runs, id, n) && !UsedAttempt(m.db, a)
    ensures Apply(world, m, Prepare(id, n, a, now)).db == PreparedIn(m.db, id, n, a, now).db
  {
  }

  lemma AdvanceLasts(world: World, m: Machine, f: Flight, action: Action)
    requires DbOk(m.db) && f.ticket.step.attemptId.Some? && SeenReportable(f.stage)
    ensures Lasts(m.db, Advance(world, m, f, action).db)
  {
    if action.Commit? && f.stage.Confirmed? {
      CommitMove(world, m.db, f.ticket, f.stage.seen, f.changeFailed, action.now);
      MovesLast(m.db, CommittedIn(world, m.db, f.ticket, f.stage.seen, f.changeFailed, action.now), None);
      CommitIs(world, m, f, f.stage.seen, action.now);
    } else if action.Fail? && f.stage.Failing? {
      FailureMove(m.db, f.ticket, action.now);
      MovesLast(m.db, FailedIn(m.db, f.ticket, action.now), None);
      FailIs(world, m, f, action.now);
    } else if action.Reject? && f.stage.Rejecting? {
      RejectionMove(m.db, f.ticket, f.stage.reason);
      MovesLast(m.db, RejectedIn(m.db, f.ticket, f.stage.reason), None);
      RejectIs(world, m, f);
    } else {
      NoTransaction(world, m, f, action);
      NothingLasts(m.db);
    }
  }

  lemma FailIs(world: World, m: Machine, f: Flight, now: nat)
    requires f.stage.Failing?
    ensures Advance(world, m, f, Fail(now)).db == FailedIn(m.db, f.ticket, now)
  {
  }

  lemma RejectIs(world: World, m: Machine, f: Flight)
    requires f.stage.Rejecting?
    ensures Advance(world, m, f, Reject).db == RejectedIn(m.db, f.ticket, f.stage.reason)
  {
  }

  lemma NoTransaction(world: World, m: Machine, f: Flight, action: Action)
    requires !(action.Commit? && f.stage.Confirmed?) && !(action.Fail? && f.stage.Failing?) && !(action.Reject? && f.stage.Rejecting?)
    ensures Advance(world, m, f, action).db == m.db
  {
  }

  lemma PendingStopLasts(db: Database, id: Id, n: Id)
    requires DbOk(db) && HasStep(db.runs, id, n)
    ensures Lasts(db, PendingStoppedIn(db, id, n))
  {
    PendingStopMove(db, id, n);
    MovesLast(db, PendingStoppedIn(db, id, n), None);
  }

  lemma ActionLasts(world: World, m: Machine, action: Action)
    requires DbOk(m.db) && FlightsOk(m.db, m.trace, m.flight)
    ensures Lasts(m.db, Apply(world, m, action).db)
  {
    if action.Start? {
      StartLasts(world, m, action);
    } else if action.Stop? || action.Resume? || action.Change? {
      CommandLasts(world, m, action);
    } else if action.StopPending? {
      PendingStopIs(world, m, action.id, action.node);
      if m.flight.None? && HasStep(m.db.runs, action.id, action.node) {
        PendingStopLasts(m.db, action.id, action.node);
      } else {
        NothingLasts(m.db);
      }
    } else if action.Prepare? {
      PrepareLasts(world, m, action.id, action.node, action.attemptId, action.now);
    } else if m.flight.Some? {
      AdvanceLasts(world, m, m.flight.value, action);
    } else {
      NothingLasts(m.db);
    }
  }

  lemma NextLasts(world: World, actions: seq<Action>, action: Action)
    ensures Lasts(After(world, actions), After(world, actions + [action]))
  {
    RunsAreSound(world, actions);
    ActionLasts(world, RunAll(world, actions), action);
    AppliedNext(world, actions, action);
  }

  lemma AppliedNext(world: World, actions: seq<Action>, action: Action)
    ensures RunAll(world, actions + [action]) == Apply(world, RunAll(world, actions), action)
  {
    assert (actions + [action])[..|actions|] == actions;
  }

  /* ---------- stopping ---------- */

  /** No attempt was added for any step of the run. */
  ghost predicate NoNewAttempt(a: Database, b: Database, r: Id)
    requires r in a.runs && r in b.runs
  {
    forall n :: n in a.runs[r].steps ==> n in b.runs[r].steps && RowsFor(b.attempts, r, n) == RowsFor(a.attempts, r, n)
  }

  /** While a run is stopping no step gains an attempt, and the run leaves stopping only for stopped. */
  lemma StoppingOnlyStops(world: World, actions: seq<Action>, action: Action, r: Id)
    requires StoppingRun(After(world, actions).runs, r)
    ensures var was, next := After(world, actions), After(world, actions + [action]);
            && r in next.runs && (next.runs[r].state.RunStopping? || next.runs[r].state.RunStopped?)
            && NoNewAttempt(was, next, r)
  {
    var was, next := After(world, actions), After(world, actions + [action]);
    NextLasts(world, actions, action);
    assert StopHolds(was.runs, next.runs, r);
    BooksAfter(world, actions);
    BooksAfter(world, actions + [action]);
    forall n | n in was.runs[r].steps
      ensures n in next.runs[r].steps && RowsFor(next.attempts, r, n) == RowsFor(was.attempts, r, n)
    {
      SameRowsFor(was, next, r, n);
    }
  }

  lemma BooksAfter(world: World, actions: seq<Action>)
    ensures StepsBooked(After(world, actions).runs, After(world, actions).attempts)
  {
    AfterIsOk(world, actions);
  }

  lemma SameRowsFor(a: Database, b: Database, r: Id, n: Id)
    requires StepsBooked(a.runs, a.attempts) && StepsBooked(b.runs, b.attempts) && RecordsLast(a.attempts, b.attempts)
    requires StopHolds(a.runs, b.runs, r) && n in a.runs[r].steps
    ensures RowsFor(b.attempts, r, n) == RowsFor(a.attempts, r, n)
  {
    assert HasStep(a.runs, r, n) && HasStep(b.runs, r, n);
    RowsGrow(a.attempts, b.attempts, r, n);
  }

  lemma {:induction false} RowsGrow(a: seq<Attempt>, b: seq<Attempt>, r: Id, n: Id)
    requires RecordsLast(a, b)
    ensures |RowsFor(a, r, n)| <= |RowsFor(b, r, n)|
    ensures RowsFor(b, r, n)[..|RowsFor(a, r, n)|] == RowsFor(a, r, n)
  {
    if |a| == |b| {
      RowsSame(a, b, r, n);
    } else {
      RowsGrow(a, b[..|b| - 1], r, n);
    }
  }

  /* ---------- outputs and inputs ---------- */

  lemma NextKeepsOutput(world: World, actions: seq<Action>, action: Action, r: Id, n: Id)
    requires HasStep(After(world, actions).runs, r, n)
    ensures OutputLasts(After(world, actions).runs, After(world, actions + [action]).runs, r, n)
  {
    NextLasts(world, actions, action);
  }

  /** The outputs of a succeeded step never change again, across retries, stop and resume. */
  lemma {:induction false} SucceededOutputsLast(world: World, actions: seq<Action>, more: seq<Action>, r: Id, n: Id)
    requires HasStep(After(world, actions).runs, r, n) && After(world, actions).runs[r].steps[n].state.Succeeded?
    ensures var next := After(world, actions + more);
            && HasStep(next.runs, r, n) && next.runs[r].steps[n].state.Succeeded?
            && next.runs[r].steps[n].outputs == After(world, actions).runs[r].steps[n].outputs
  {
    if more == [] {
      assert actions + more == actions;
    } else {
      var earlier := actions + more[..|more| - 1];
      SucceededOutputsLast(world, actions, more[..|more| - 1], r, n);
      NextKeepsOutput(world, earlier, more[|more| - 1], r, n);
      assert actions + more == earlier + [more[|more| - 1]];
    }
  }

  lemma {:induction false} InputOfEdge(edges: seq<Edge>, steps: Steps, n: Id, k: nat)
    requires OneSourcePerInput(edges) && k < |edges| && edges[k].to.node == n && edges[k].from.node in steps
    ensures var e := edges[k];
            && (e.to.port in InputsOf(edges, steps, n) <==> e.from.port in steps[e.from.node].outputs)
            && (e.to.port in InputsOf(edges, steps, n) ==> InputsOf(edges, steps, n)[e.to.port] == steps[e.from.node].outputs[e.from.port])
  {
    var init, last := edges[..|edges| - 1], edges[|edges| - 1];
    if k < |edges| - 1 {
      InputOfEdge(init, steps, n, k);
    } else {
      NoOtherInput(init, steps, n, last.to.port);
    }
  }

  lemma {:induction false} NoOtherInput(edges: seq<Edge>, steps: Steps, n: Id, port: Id)
    requires forall i :: 0 <= i < |edges| ==> edges[i].to != Connector(n, port)
    ensures port !in InputsOf(edges, steps, n)
  {
    if edges != [] {
      NoOtherInput(edges[..|edges| - 1], steps, n, port);
      assert edges[|edges| - 1].to != Connector(n, port);
    }
  }

  /** A step that was ever dispatched was fed by succeeded predecessors: in every later state its recorded input on
      each connected port is the output its predecessor has there. */
  lemma InputsAreOutputs(world: World, actions: seq<Action>, r: Id, n: Id, e: Edge)
    requires HasStep(After(world, actions).runs, r, n) && After(world, actions).runs[r].steps[n].generation > 0
    requires e in After(world, actions).runs[r].graph.edges && e.to.node == n
    ensures var steps := After(world, actions).runs[r].steps;
            && e.from.node in steps && steps[e.from.node].state.Succeeded?
            && (e.to.port in steps[n].inputs <==> e.from.port in steps[e.from.node].outputs)
            && (e.to.port in steps[n].inputs ==> steps[n].inputs[e.to.port] == steps[e.from.node].outputs[e.from.port])
  {
    AfterIsOk(world, actions);
    var run := After(world, actions).runs[r];
    RunOf(After(world, actions).runs, r);
    assert Fed(run.graph.edges, run.steps, n);
    var k :| 0 <= k < |run.graph.edges| && run.graph.edges[k] == e;
    InputOfEdge(run.graph.edges, run.steps, n, k);
  }

  /* ---------- the end of a run ---------- */

  /** A run is over exactly when all its steps are; otherwise, unless it is stopping, some step can move. */
  lemma RunsEndOrMove(world: World, actions: seq<Action>, r: Id)
    requires r in After(world, actions).runs
    ensures var run := After(world, actions).runs[r];
            && (TerminalRun(run.state) <==> forall n :: n in run.steps ==> TerminalStep(run.steps[n]))
            && (!TerminalRun(run.state) && !run.state.RunStopping? ==> exists n :: CanMove(run, n))
  {
    AfterIsOk(world, actions);
    var run := After(world, actions).runs[r];
    RunOf(After(world, actions).runs, r);
    if !TerminalRun(run.state) && !run.state.RunStopping? {
      NoDeadlock(run);
    }
  }

  /* ---------- attempts ---------- */

  /** At most two retries and three generations per start or resume; one recorded attempt per generation, the newest
      of them the live one; pending steps carry no attempt. */
  ghost predicate Bounded(s: RunStep, rows: seq<Row>, resumes: nat) {
    && s.retries <= 2 && s.generation <= 3 * (resumes + 1)
    && |rows| == s.generation && (forall k :: 0 <= k < |rows| ==> rows[k].generation == k + 1)
    && (s.attemptId.Some? ==> rows != [] && rows[|rows| - 1].attemptId == s.attemptId.value)
    && (s.state.Pending? ==> s.attemptId.None?)
  }

  lemma StepIsBounded(s: RunStep, rows: seq<Row>, resumes: nat)
    requires StepOk(s) && Agrees(rows, s.generation, s.attemptId) && Budgeted(s, resumes)
    ensures Bounded(s, rows, resumes)
  {
  }

  lemma LedgerBounds(db: Database, r: Id, n: Id)
    requires RunsOk(db.runs) && StepsBooked(db.runs, db.attempts) && StepsBudgeted(db.runs, db.events) && HasStep(db.runs, r, n)
    ensures Bounded(db.runs[r].steps[n], RowsFor(db.attempts, r, n), Resumes(db.events, r))
  {
    StepOf(db.runs, r, n);
    assert Booked(db.attempts, r, n, db.runs[r].steps[n]) && Budgeted(db.runs[r].steps[n], Resumes(db.events, r));
    StepIsBounded(db.runs[r].steps[n], RowsFor(db.attempts, r, n), Resumes(db.events, r));
  }

  lemma AttemptsAreBounded(world: World, actions: seq<Action>, r: Id, n: Id)
    requires HasStep(After(world, actions).runs, r, n)
    ensures var db := After(world, actions);
            Bounded(db.runs[r].steps[n], RowsFor(db.attempts, r, n), Resumes(db.events, r))
  {
    AfterIsOk(world, actions);
    LedgerBounds(After(world, actions), r, n);
  }

  /** An attempt id is never recorded twice. */
  lemma AttemptIdsAreUnique(world: World, actions: seq<Action>)
    ensures DistinctAttempts(After(world, actions).attempts)
  {
    AfterIsOk(world, actions);
  }
}
