/** Over every run of the coordinator: each change of a step has one of a few reasons, ends are believed only from the
    authority, and the state of a run says how its steps ended (packages/run-control/service.ts). */
module RunReasons {
  import opened Wrappers
  import opened PipelineModel
  import opened RunModel
  import opened RunOutcomes
  import opened RunLedger
  import opened RunMoves
  import opened RunMachine
  import opened RunSafety
  import opened RunCauses
  import RunHistory
  import RunTheorems

  /** The advance in flight works for the live attempt of this step. */
  predicate Working(m: Machine, r: Id, n: Id) {
    m.flight.Some? && m.flight.value.ticket.run.id == r && m.flight.value.ticket.node == n && Unfinished(m.db.runs, m.flight.value.ticket)
  }

  /** The action commits an adapter's report about the live attempt, and the step takes it over. */
  ghost predicate Reported(catalog: Catalog, m: Machine, action: Action, r: Id, n: Id, t: RunStep) {
    && action.Commit? && Working(m, r, n) && m.flight.value.stage.Confirmed? && m.flight.value.stage.seen.Seen?
    && Answers(m.db.runs, m.flight.value.ticket, m.flight.value.stage.seen)
    && StepTaken(catalog, m.db.runs[r], n, m.flight.value.stage.seen, action.now, t)
  }

  /** A predecessor ended unsuccessfully before the step was ever tried. */
  predicate CutOff(a: Runs, r: Id, n: Id, b: Runs)
    requires HasStep(a, r, n) && HasStep(b, r, n)
  {
    && a[r].steps[n].state.Pending? && a[r].steps[n].attemptId.None? && !a[r].state.RunStopping? && b[r].steps[n].state.Stopped?
    && exists e :: e in a[r].graph.edges && e.to.node == n && e.from.node in b[r].steps && Unsuccessful(b[r].steps[e.from.node])
  }

  /** Why the state of a step changed. */
  ghost predicate Reason(catalog: Catalog, m: Machine, action: Action, r: Id, n: Id, next: Runs)
    requires HasStep(m.db.runs, r, n) && HasStep(next, r, n)
  {
    var s, t := m.db.runs[r].steps[n], next[r].steps[n];
    var stopping := m.db.runs[r].state.RunStopping?;
    || t.state == s.state
    || Reported(catalog, m, action, r, n, t)
    || (t.state.Unknown? && Working(m, r, n) && SameWork(s, t)
        && (action.Fail? || (action.Commit? && m.flight.value.stage == Confirmed(Absent))))
    || (t.state.Failed? && Working(m, r, n) && action.Reject? && m.flight.value.stage.Rejecting? && !stopping)
    || (t.state.Stopped? && stopping
        && (s.attemptId.None? || (Working(m, r, n) && (action.Reject? || m.flight.value.stage == Confirmed(Absent)))))
    || CutOff(m.db.runs, r, n, next)
    || (t.state.Dispatching? && action.Prepare? && action.id == r && action.node == n && m.flight.None?
        && Dispatchable(m.db.runs, r, n, action.now) && t.attemptId == Some(action.attemptId))
    || (t.state.Pending? && action.Resume? && action.id == r && Unsuccessful(s) && AllTerminal(m.db.runs[r].steps))
  }

  /** Every step of every run is still there, and its state changed for a reason. */
  ghost predicate Reasoned(catalog: Catalog, m: Machine, action: Action, next: Runs) {
    forall r, n :: HasStep(m.db.runs, r, n) ==> HasStep(next, r, n) && Reason(catalog, m, action, r, n, next)
  }

  lemma SameStatesAreReasoned(catalog: Catalog, m: Machine, action: Action, next: Runs)
    requires forall r, n :: HasStep(m.db.runs, r, n) ==> HasStep(next, r, n) && next[r].steps[n].state == m.db.runs[r].steps[n].state
    ensures Reasoned(catalog, m, action, next)
  {
  }

  /** A transaction on step `n` of run `r`: the others are untouched or cut off. */
  lemma OthersAreReasoned(catalog: Catalog, m: Machine, action: Action, r: Id, n: Id, next: Runs)
    requires HasStep(m.db.runs, r, n) && OnlyRun(m.db.runs, next, r)
    requires n in next[r].steps
    requires RunTaken(m.db.runs[r], n, next[r]) || next[r].steps == m.db.runs[r].steps[n := next[r].steps[n]]
    requires Reason(catalog, m, action, r, n, next)
    ensures Reasoned(catalog, m, action, next)
  {
    forall q, k | HasStep(m.db.runs, q, k) ensures HasStep(next, q, k) && Reason(catalog, m, action, q, k, next) {
      if q == r && k != n && RunTaken(m.db.runs[r], n, next[r]) {
        assert OnlyStoppedUpstream(m.db.runs[r], next[r], k);
      }
    }
  }

  lemma CommitIsReasoned(world: World, m: Machine, f: Flight, now: nat)
    requires DbOk(m.db) && m.flight == Some(f) && f.stage.Confirmed? && f.ticket.step.attemptId.Some? && Reportable(f.stage.seen)
    ensures Reasoned(world.catalog, m, Commit(now), Advance(world, m, f, Commit(now)).db.runs)
  {
    var o, t := f.stage.seen, f.ticket;
    var next := CommittedIn(world, m.db, t, o, f.changeFailed, now).runs;
    CommitIs(world, m, f, o, now);
    CommitIsTaken(world, m.db, t, o, f.changeFailed, now);
    if Answers(m.db.runs, t, o) {
      OthersAreReasoned(world.catalog, m, Commit(now), t.run.id, t.node, next);
    } else {
      SameStatesAreReasoned(world.catalog, m, Commit(now), next);
    }
  }

  lemma RejectIsReasoned(world: World, m: Machine, f: Flight)
    requires DbOk(m.db) && m.flight == Some(f) && f.stage.Rejecting?
    ensures Reasoned(world.catalog, m, Reject, Advance(world, m, f, Reject).db.runs)
  {
    RunTheorems.RejectIs(world, m, f);
    RejectionTaken(m.db, f.ticket, f.stage.reason);
    var next := RejectedIn(m.db, f.ticket, f.stage.reason).runs;
    if Unfinished(m.db.runs, f.ticket) {
      OthersAreReasoned(world.catalog, m, Reject, f.ticket.run.id, f.ticket.node, next);
    } else {
      SameStatesAreReasoned(world.catalog, m, Reject, next);
    }
  }

  lemma FailIsReasoned(world: World, m: Machine, f: Flight, now: nat)
    requires m.flight == Some(f) && f.stage.Failing?
    ensures Reasoned(world.catalog, m, Fail(now), Advance(world, m, f, Fail(now)).db.runs)
  {
    RunTheorems.FailIs(world, m, f, now);
    FailureTaken(m.db, f.ticket, now);
    var next := FailedIn(m.db, f.ticket, now).runs;
    if Unfinished(m.db.runs, f.ticket) {
      OthersAreReasoned(world.catalog, m, Fail(now), f.ticket.run.id, f.ticket.node, next);
    } else {
      SameStatesAreReasoned(world.catalog, m, Fail(now), next);
    }
  }

  lemma AdvanceIsReasoned(world: World, m: Machine, f: Flight, action: Action)
    requires Sound(m) && m.flight == Some(f)
    ensures Reasoned(world.catalog, m, action, Advance(world, m, f, action).db.runs)
  {
    if (action.Commit? && f.stage.Confirmed?) || (action.Reject? && f.stage.Rejecting?) || (action.Fail? && f.stage.Failing?) {
      ConfirmedOrEnding(m, f);
      EndIsReasoned(world, m, f, action);
    } else {
      RunTheorems.NoTransaction(world, m, f, action);
      SameStatesAreReasoned(world.catalog, m, action, m.db.runs);
    }
  }

  lemma ConfirmedOrEnding(m: Machine, f: Flight)
    requires Sound(m) && m.flight == Some(f)
    ensures DbOk(m.db) && f.ticket.step.attemptId.Some? && (f.stage.Confirmed? ==> Reportable(f.stage.seen))
  {
  }

  lemma EndIsReasoned(world: World, m: Machine, f: Flight, action: Action)
    requires DbOk(m.db) && m.flight == Some(f) && f.ticket.step.attemptId.Some? && (f.stage.Confirmed? ==> Reportable(f.stage.seen))
    requires (action.Commit? && f.stage.Confirmed?) || (action.Reject? && f.stage.Rejecting?) || (action.Fail? && f.stage.Failing?)
    ensures Reasoned(world.catalog, m, action, Advance(world, m, f, action).db.runs)
  {
    if action.Commit? {
      CommitIsReasoned(world, m, f, action.now);
    } else if action.Reject? {
      RejectIsReasoned(world, m, f);
    } else {
      FailIsReasoned(world, m, f, action.now);
    }
  }

  lemma PrepareIsReasoned(world: World, m: Machine, id: Id, n: Id, x: Id, now: nat)
    requires DbOk(m.db)
    ensures Reasoned(world.catalog, m, Prepare(id, n, x, now), Apply(world, m, Prepare(id, n, x, now)).db.runs)
  {
    var action := Prepare(id, n, x, now);
    if m.flight.None? && HasStep(m.db.runs, id, n) && !UsedAttempt(m.db, x) {
      RunTheorems.PrepareIs(world, m, id, n, x, now);
      PreparationTaken(m.db, id, n, x, now);
      OthersAreReasoned(world.catalog, m, action, id, n, PreparedIn(m.db, id, n, x, now).db.runs);
    } else {
      RunTheorems.NothingPrepared(world, m, id, n, x, now);
      SameStatesAreReasoned(world.catalog, m, action, m.db.runs);
    }
  }

  lemma PendingStopIsReasoned(world: World, m: Machine, id: Id, n: Id)
    requires DbOk(m.db)
    ensures Reasoned(world.catalog, m, StopPending(id, n), Apply(world, m, StopPending(id, n)).db.runs)
  {
    PendingStopIs(world, m, id, n);
    if m.flight.None? && HasStep(m.db.runs, id, n) {
      PendingStopTaken(m.db, id, n);
      var s, next := m.db.runs[id].steps[n], PendingStoppedIn(m.db, id, n).runs;
      if m.db.runs[id].state.RunStopping? && s.attemptId.None? && !TerminalStep(s) {
        OthersAreReasoned(world.catalog, m, StopPending(id, n), id, n, next);
      } else {
        SameStatesAreReasoned(world.catalog, m, StopPending(id, n), next);
      }
    } else {
      SameStatesAreReasoned(world.catalog, m, StopPending(id, n), m.db.runs);
    }
  }

  lemma CommandIsReasoned(world: World, m: Machine, action: Action)
    requires action.Start? || action.Stop? || action.Change?
    ensures Reasoned(world.catalog, m, action, Apply(world, m, action).db.runs)
  {
    forall r, n | HasStep(m.db.runs, r, n)
      ensures HasStep(Apply(world, m, action).db.runs, r, n)
      ensures Apply(world, m, action).db.runs[r].steps[n].state == m.db.runs[r].steps[n].state
    {
      if action.Start? {
        StartKeepsState(world, m, action, r, n);
      } else if action.Stop? {
        StopKeepsState(m.db, action.id, action.expectedRevision, r, n);
      } else {
        ChangeKeepsState(world, m, action, r, n);
      }
    }
    SameStatesAreReasoned(world.catalog, m, action, Apply(world, m, action).db.runs);
  }

  lemma StartKeepsState(world: World, m: Machine, action: Action, r: Id, n: Id)
    requires action.Start? && HasStep(m.db.runs, r, n)
    ensures var next := Apply(world, m, action).db.runs; r in next && next[r] == m.db.runs[r]
  {
  }

  lemma StopKeepsState(db: Database, id: Id, expectedRevision: nat, r: Id, n: Id)
    requires HasStep(db.runs, r, n)
    ensures var next := StopRequestedIn(db, id, expectedRevision).runs;
            HasStep(next, r, n) && next[r].steps[n].state == db.runs[r].steps[n].state
  {
  }

  lemma ChangeKeepsState(world: World, m: Machine, action: Action, r: Id, n: Id)
    requires action.Change? && HasStep(m.db.runs, r, n)
    ensures var next := Apply(world, m, action).db.runs;
            HasStep(next, r, n) && next[r].steps[n].state == m.db.runs[r].steps[n].state
  {
    if action.branchId !in m.db.runs && action.expected.run in m.db.runs {
      ChangeIs(world, m.db, action.expected, action.changeId, action.branchId, action.actor);
    }
  }

  lemma ChangeIs(world: World, db: Database, p: Preview, changeId: Id, branchId: Id, actor: Id)
    requires p.run in db.runs && branchId !in db.runs
    ensures var next := ChangedIn(world, db, p.run, p, changeId, branchId, actor).runs;
            || next == db.runs
            || (branchId in next && next == db.runs[branchId := next[branchId]])
            || (p.node in db.runs[p.run].steps && next == db.runs[p.run := OnlineRun(db.runs[p.run], p.node, p.config, changeId)])
  {
  }

  lemma ResumeIsReasoned(world: World, m: Machine, id: Id, expectedRevision: nat)
    ensures Reasoned(world.catalog, m, Resume(id, expectedRevision), Apply(world, m, Resume(id, expectedRevision)).db.runs)
  {
  }

  lemma TickIsReasoned(world: World, m: Machine, action: Action)
    requires DbOk(m.db) && (action.StopPending? || action.Prepare?)
    ensures Reasoned(world.catalog, m, action, Apply(world, m, action).db.runs)
  {
    if action.StopPending? {
      PendingStopIsReasoned(world, m, action.id, action.node);
    } else {
      PrepareIsReasoned(world, m, action.id, action.node, action.attemptId, action.now);
    }
  }

  lemma FlightIsReasoned(world: World, m: Machine, action: Action)
    requires Sound(m) && !action.Start? && !action.Stop? && !action.Change? && !action.Resume? && !action.StopPending? && !action.Prepare?
    ensures Reasoned(world.catalog, m, action, Apply(world, m, action).db.runs)
  {
    if m.flight.Some? {
      AdvanceIsReasoned(world, m, m.flight.value, action);
    } else {
      SameStatesAreReasoned(world.catalog, m, action, m.db.runs);
    }
  }

  lemma ActionIsReasoned(world: World, m: Machine, action: Action)
    requires Sound(m)
    ensures Reasoned(world.catalog, m, action, Apply(world, m, action).db.runs)
  {
    if action.Resume? {
      ResumeIsReasoned(world, m, action.id, action.expectedRevision);
    } else if action.Start? || action.Stop? || action.Change? {
      CommandIsReasoned(world, m, action);
    } else if action.StopPending? || action.Prepare? {
      TickIsReasoned(world, m, action);
    } else {
      FlightIsReasoned(world, m, action);
    }
  }

  /* ---------- over every run ---------- */

  /** Whatever happens next, every step of every run changes for one of the reasons. */
  lemma StepsChangeForReasons(world: World, actions: seq<Action>, action: Action)
    ensures Reasoned(world.catalog, RunAll(world, actions), action, RunAll(world, actions + [action]).db.runs)
  {
    RunsAreSound(world, actions);
    ActionIsReasoned(world, RunAll(world, actions), action);
    RunTheorems.AppliedNext(world, actions, action);
  }

  /** A step succeeds only when the authority reports success of its live attempt, with every declared output; those are
      its outputs then. */
  lemma SuccessIsAuthoritative(world: World, actions: seq<Action>, action: Action, r: Id, n: Id)
    requires HasStep(RunAll(world, actions).db.runs, r, n) && !RunAll(world, actions).db.runs[r].steps[n].state.Succeeded?
    requires HasStep(RunAll(world, actions + [action]).db.runs, r, n)
    requires RunAll(world, actions + [action]).db.runs[r].steps[n].state.Succeeded?
    ensures var m, next := RunAll(world, actions), RunAll(world, actions + [action]).db.runs;
            && action.Commit? && Working(m, r, n) && m.flight.value.stage.Confirmed? && m.flight.value.stage.seen.Seen?
            && var o := m.flight.value.stage.seen;
               && Answers(m.db.runs, m.flight.value.ticket, o) && o.state.Succeeded? && o.terminalAuthority
               && Complete(world.catalog, m.db.runs[r].graph, n, o.outputs) && next[r].steps[n].outputs == o.outputs
  {
    StepsChangeForReasons(world, actions, action);
    assert Reason(world.catalog, RunAll(world, actions), action, r, n, RunAll(world, actions + [action]).db.runs);
  }

  /** Committing an observation in any run: about the live attempt it is taken over as it says, an absence ends the step of
      a stopping run and leaves any other unclear, and anything else changes nothing. */
  lemma CommitsAreTakenOver(world: World, actions: seq<Action>, now: nat)
    requires RunAll(world, actions).flight.Some? && RunAll(world, actions).flight.value.stage.Confirmed?
    ensures var m, next := RunAll(world, actions), RunAll(world, actions + [Commit(now)]);
            CommitTaken(world.catalog, m.db.runs, m.flight.value.ticket, m.flight.value.stage.seen, now, next.db.runs)
  {
    var m := RunAll(world, actions);
    var f := m.flight.value;
    RunsAreSound(world, actions);
    ConfirmedFacts(m, f);
    RunTheorems.AppliedNext(world, actions, Commit(now));
    CommitIs(world, m, f, f.stage.seen, now);
    CommitIsTaken(world, m.db, f.ticket, f.stage.seen, f.changeFailed, now);
  }

  /** Committing a sighting of the live attempt records it with that attempt, and with no other. */
  lemma ObservationsAreRecorded(world: World, actions: seq<Action>, now: nat)
    requires RunAll(world, actions).flight.Some? && RunAll(world, actions).flight.value.stage.Confirmed?
    ensures RowsTaken(RunAll(world, actions).db, RunAll(world, actions).flight.value, RunAll(world, actions + [Commit(now)]).db.attempts)
  {
    RunsAreSound(world, actions);
    RunTheorems.AppliedNext(world, actions, Commit(now));
    RowsAfterCommit(world, RunAll(world, actions), RunAll(world, actions).flight.value, now);
  }

  predicate RowsTaken(db: Database, f: Flight, next: seq<Attempt>)
    requires f.stage.Confirmed?
  {
    if f.stage.seen.Seen? && Answers(db.runs, f.ticket, f.stage.seen) then Observed(db.attempts, f.stage.seen, next) else next == db.attempts
  }

  lemma RowsAfterCommit(world: World, m: Machine, f: Flight, now: nat)
    requires DistinctAttempts(m.db.attempts) && m.flight == Some(f) && f.stage.Confirmed?
    ensures RowsTaken(m.db, f, Apply(world, m, Commit(now)).db.attempts)
  {
    CommitIs(world, m, f, f.stage.seen, now);
    CommittedRows(world, m.db, f.ticket, f.stage.seen, f.changeFailed, now);
  }

  predicate Observed(a: seq<Attempt>, o: Observation, b: seq<Attempt>)
    requires o.Seen?
  {
    |b| == |a| && forall i :: 0 <= i < |a| ==> b[i] == if a[i].attemptId == o.attemptId then a[i].(observation := Some(o)) else a[i]
  }

  lemma {:induction false} ObservedOnce(attempts: seq<Attempt>, o: Observation)
    requires o.Seen? && DistinctAttempts(attempts)
    ensures Observed(attempts, o, WithObservation(attempts, o.attemptId, o))
  {
    if attempts != [] {
      if attempts[0].attemptId == o.attemptId {
        assert forall i :: 0 < i < |attempts| ==> attempts[i].attemptId != attempts[0].attemptId;
      } else {
        assert DistinctAttempts(attempts[1..]);
        ObservedOnce(attempts[1..], o);
      }
    }
  }

  lemma CommittedRows(world: World, db: Database, t: Ticket, o: Observation, changeFailed: bool, now: nat)
    requires DistinctAttempts(db.attempts)
    ensures var next := CommittedIn(world, db, t, o, changeFailed, now).attempts;
            if o.Seen? && Answers(db.runs, t, o) then Observed(db.attempts, o, next) else next == db.attempts
  {
    if o.Seen? {
      ObservedOnce(db.attempts, o);
    }
  }

  /** A change is submitted exactly when it is due for an attempt that runs without it. */
  lemma ChangesAreSubmittedWhenDue(world: World, actions: seq<Action>, now: nat, reply: Reply)
    requires RunAll(world, actions).flight.Some? && RunAll(world, actions).flight.value.stage.LookedUp?
    ensures RunAll(world, actions + [AfterLookup(now, reply)]).trace
            == RunAll(world, actions).trace + SubmittedIn(RunAll(world, actions).flight.value, now)
  {
    RunTheorems.AppliedNext(world, actions, AfterLookup(now, reply));
    SubmitsWhenDue(world, RunAll(world, actions), RunAll(world, actions).flight.value, now, reply);
  }

  function SubmittedIn(f: Flight, now: nat): seq<Call>
    requires f.stage.LookedUp?
  {
    if f.stage.seen.Seen? && f.stage.seen.state.Running? && DueChange(f.ticket.step, f.stage.seen, now) then [ChangeCall(AttemptOf(f))] else []
  }

  lemma SubmitsWhenDue(world: World, m: Machine, f: Flight, now: nat, reply: Reply)
    requires m.flight == Some(f) && f.stage.LookedUp?
    ensures Apply(world, m, AfterLookup(now, reply)).trace == m.trace + SubmittedIn(f, now)
  {
    DueMeansNeeded(f, now);
    LookupTrace(world, m, f, now, reply);
  }

  lemma DueMeansNeeded(f: Flight, now: nat)
    requires f.stage.LookedUp?
    ensures NeedsChange(f.ticket, f.stage.seen, now) <==> SubmittedIn(f, now) != []
  {
  }

  lemma LookupTrace(world: World, m: Machine, f: Flight, now: nat, reply: Reply)
    requires m.flight == Some(f) && f.stage.LookedUp?
    ensures Apply(world, m, AfterLookup(now, reply)).trace
            == if NeedsChange(f.ticket, f.stage.seen, now) then m.trace + [ChangeCall(AttemptOf(f))] else m.trace
  {
  }

  predicate DueChange(s: RunStep, o: Observation, now: nat)
    requires o.Seen?
  {
    && s.change.Some? && (s.change.value.nextAttemptAt.Some? ==> s.change.value.nextAttemptAt.value <= now)
    && (o.appliedConfig.None? || o.appliedConfig.value != s.change.value.config)
  }

  /** Taking up a step of any run dispatches it exactly when it is pending, due and fed, in a run that is not stopping. */
  lemma DispatchesExactly(world: World, actions: seq<Action>, r: Id, n: Id, x: Id, now: nat)
    requires RunAll(world, actions).flight.None? && HasStep(RunAll(world, actions).db.runs, r, n) && !UsedAttempt(RunAll(world, actions).db, x)
    ensures var m, next := RunAll(world, actions), RunAll(world, actions + [Prepare(r, n, x, now)]);
            if Dispatchable(m.db.runs, r, n, now) then DispatchTaken(m.db.runs, r, n, x, next.db.runs)
            else
              || WaitTaken(m.db.runs, r, n, next.db.runs)
              || (m.db.runs[r].state.RunStopping? && m.db.runs[r].steps[n].attemptId.None? && EndTaken(m.db.runs, r, n, next.db.runs))
  {
    var m := RunAll(world, actions);
    RunsAreSound(world, actions);
    RunTheorems.AppliedNext(world, actions, Prepare(r, n, x, now));
    RunTheorems.PrepareIs(world, m, r, n, x, now);
    PreparationTaken(m.db, r, n, x, now);
  }

  /** A run succeeded exactly when all its steps did and no stop ended it; it failed exactly when all its steps ended,
      not all of them well, and no stop ended it. */
  lemma RunsEndAsTheirSteps(world: World, actions: seq<Action>, r: Id)
    requires r in RunAll(world, actions).db.runs
    ensures var run := RunAll(world, actions).db.runs[r];
            var done := forall n :: n in run.steps ==> run.steps[n].state.Succeeded?;
            var over := forall n :: n in run.steps ==> TerminalStep(run.steps[n]);
            && (run.state.RunSucceeded? <==> done && !run.state.RunStopped?)
            && (run.state.RunFailed? <==> over && !done && !run.state.RunStopped?)
            && (run.state.RunStopped? ==> over)
  {
    RunsAreSound(world, actions);
    RunOf(RunAll(world, actions).db.runs, r);
  }

  /** A run is stopped only where it was stopping before. */
  lemma OnlyStoppingEndsInStopped(world: World, actions: seq<Action>, action: Action, r: Id)
    requires r in RunAll(world, actions + [action]).db.runs && RunAll(world, actions + [action]).db.runs[r].state.RunStopped?
    ensures var before := RunAll(world, actions).db.runs;
            r in before && (before[r].state.RunStopping? || before[r].state.RunStopped?)
  {
    RunTheorems.NextLasts(world, actions, action);
    assert RunHistory.StoppedRun(RunAll(world, actions + [action]).db.runs, r);
  }

  /** The steps from an absent lookup to the start call, if nothing changes meanwhile. */
  function StartSteps(now: nat, unused: Reply, reply: Reply): seq<Action> {
    [AfterLookup(now, unused), ReadLatest, Resolve(TargetsSame), ReadLatest, CallStart(reply)]
  }

  /** A dispatching step whose attempt nobody knows is started, unless a stop came in or its targets changed. */
  lemma AbsentDispatchIsStarted(world: World, actions: seq<Action>, now: nat, unused: Reply, reply: Reply)
    requires RunAll(world, actions).flight.Some? && RunAll(world, actions).flight.value.stage == LookedUp(Absent)
    requires RunAll(world, actions).flight.value.ticket.step.state.Dispatching?
    requires !StoppingNow(RunAll(world, actions).db, RunAll(world, actions).flight.value.ticket)
    ensures var m, next := RunAll(world, actions), RunAll(world, actions + StartSteps(now, unused, reply));
            next.trace == m.trace + [StartCall(AttemptOf(m.flight.value))] && next.db == m.db
  {
    var a := StartSteps(now, unused, reply);
    RunTheorems.AppliedNext(world, actions, a[0]);
    RunTheorems.AppliedNext(world, actions + [a[0]], a[1]);
    RunTheorems.AppliedNext(world, actions + [a[0]] + [a[1]], a[2]);
    RunTheorems.AppliedNext(world, actions + [a[0]] + [a[1]] + [a[2]], a[3]);
    RunTheorems.AppliedNext(world, actions + [a[0]] + [a[1]] + [a[2]] + [a[3]], a[4]);
    assert actions + a == actions + [a[0]] + [a[1]] + [a[2]] + [a[3]] + [a[4]];
    FiveSteps(world, RunAll(world, actions), RunAll(world, actions).flight.value, now, unused, reply);
  }

  lemma FiveSteps(world: World, m: Machine, f: Flight, now: nat, unused: Reply, reply: Reply)
    requires m.flight == Some(f) && f.stage == LookedUp(Absent) && f.ticket.step.state.Dispatching? && !StoppingNow(m.db, f.ticket)
    ensures var m1 := Apply(world, m, AfterLookup(now, unused));
            var m4 := Apply(world, Apply(world, Apply(world, m1, ReadLatest), Resolve(TargetsSame)), ReadLatest);
            var m5 := Apply(world, m4, CallStart(reply));
            m5.trace == m.trace + [StartCall(AttemptOf(f))] && m5.db == m.db
  {
    var g := f.(changeFailed := false);
    AbsentStep(world, m, f, now, unused);
    NextStage(world, m.(flight := Some(g.(stage := FirstRead))), g.(stage := FirstRead), ReadLatest, Resolving);
    NextStage(world, m.(flight := Some(g.(stage := Resolving))), g.(stage := Resolving), Resolve(TargetsSame), SecondRead);
    NextStage(world, m.(flight := Some(g.(stage := SecondRead))), g.(stage := SecondRead), ReadLatest, Cleared);
    StartStep(world, m.(flight := Some(g.(stage := Cleared))), g.(stage := Cleared), reply);
  }

  lemma AbsentStep(world: World, m: Machine, f: Flight, now: nat, unused: Reply)
    requires m.flight == Some(f) && f.stage == LookedUp(Absent) && f.ticket.step.state.Dispatching?
    ensures Apply(world, m, AfterLookup(now, unused)) == m.(flight := Some(f.(changeFailed := false).(stage := FirstRead)))
  {
  }

  lemma NextStage(world: World, m: Machine, f: Flight, action: Action, stage: Stage)
    requires m.flight == Some(f) && !StoppingNow(m.db, f.ticket)
    requires (f.stage.FirstRead? && action.ReadLatest? && stage.Resolving?)
             || (f.stage.Resolving? && action == Resolve(TargetsSame) && stage.SecondRead?)
             || (f.stage.SecondRead? && action.ReadLatest? && stage.Cleared?)
    ensures Apply(world, m, action) == m.(flight := Some(f.(stage := stage)))
  {
  }

  lemma StartStep(world: World, m: Machine, f: Flight, reply: Reply)
    requires m.flight == Some(f) && f.stage.Cleared?
    ensures Apply(world, m, CallStart(reply)).trace == m.trace + [StartCall(AttemptOf(f))] && Apply(world, m, CallStart(reply)).db == m.db
  {
  }

  /** An advance of a stopping run asks the adapter to stop, any other one looks the attempt up. */
  lemma StopOrLookup(world: World, actions: seq<Action>, reply: Reply)
    requires RunAll(world, actions).flight.Some? && RunAll(world, actions).flight.value.stage.AfterPrepare?
    ensures var m := RunAll(world, actions);
            FirstCall(m, m.flight.value, reply, RunAll(world, actions + [CallStop(reply)]), RunAll(world, actions + [CallLookup(reply)]))
  {
    RunTheorems.AppliedNext(world, actions, CallStop(reply));
    RunTheorems.AppliedNext(world, actions, CallLookup(reply));
    FirstCallIs(world, RunAll(world, actions), RunAll(world, actions).flight.value, reply);
  }

  /** Either call is made in its case only. */
  predicate FirstCall(m: Machine, f: Flight, reply: Reply, stop: Machine, lookup: Machine) {
    if f.ticket.run.state.RunStopping? then stop.trace == m.trace + [StopCall(AttemptOf(f))] && lookup.trace == m.trace
    else lookup.trace == m.trace + [LookupCall(AttemptOf(f), Valid(reply) && reply.seen.Absent?)] && stop.trace == m.trace
  }

  lemma FirstCallIs(world: World, m: Machine, f: Flight, reply: Reply)
    requires m.flight == Some(f) && f.stage.AfterPrepare?
    ensures FirstCall(m, f, reply, Apply(world, m, CallStop(reply)), Apply(world, m, CallLookup(reply)))
  {
  }
}
