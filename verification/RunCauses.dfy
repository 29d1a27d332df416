/** Why a step or a run is in its state: over every run of the coordinator, each change of a step has one of a few causes
    (packages/run-control/service.ts). */
module RunCauses {
  import opened Wrappers
  import opened PipelineModel
  import opened Reconciliation
  import opened RunModel
  import opened RunInvariants
  import opened RunTransitions
  import opened RunOutcomes
  import opened RunLedger
  import opened RunMoves

  /* ---------- what each transaction does ---------- */

  predicate OnlyRun(a: Runs, b: Runs, r: Id) {
    b.Keys == a.Keys && forall q :: q in a && q != r ==> b[q] == a[q]
  }

  /** The ticket's attempt is the unfinished attempt of its step. */
  predicate Unfinished(runs: Runs, t: Ticket) {
    && HasStep(runs, t.run.id, t.node)
    && !TerminalStep(runs[t.run.id].steps[t.node]) && runs[t.run.id].steps[t.node].attemptId == t.step.attemptId
  }

  /** The observation is about that attempt, in the generation the advance set out with. */
  predicate Answers(runs: Runs, t: Ticket, o: Observation) {
    && Unfinished(runs, t) && runs[t.run.id].steps[t.node].generation == t.step.generation
    && (o.Seen? ==> t.step.attemptId == Some(o.attemptId) && t.step.generation == o.generation)
  }

  /** A committed sighting is taken over by its step, and its run draws the consequences; whatever users can see of the step
      has a new revision. */
  ghost predicate SightingTaken(catalog: Catalog, a: Runs, r: Id, n: Id, o: Observation, now: nat, b: Runs)
    requires o.Seen? && HasStep(a, r, n)
  {
    && OnlyRun(a, b, r) && RunTaken(a[r], n, b[r]) && StepTaken(catalog, a[r], n, o, now, b[r].steps[n])
    && b[r].revision == a[r].revision + (if LooksSame(a[r].steps[n], b[r].steps[n]) then 0 else 1)
  }

  lemma SightingCommitted(world: World, db: Database, t: Ticket, o: Observation, changeFailed: bool, now: nat)
    requires RunsOk(db.runs) && o.Seen? && Reportable(o) && t.step.attemptId.Some?
    ensures if Answers(db.runs, t, o)
            then SightingTaken(world.catalog, db.runs, t.run.id, t.node, o, now, CommittedIn(world, db, t, o, changeFailed, now).runs)
            else CommittedIn(world, db, t, o, changeFailed, now) == db
  {
    if Answers(db.runs, t, o) {
      RunOf(db.runs, t.run.id);
      SeenRunIs(world, db.runs[t.run.id], t, o, changeFailed, now);
      SightingIs(world, db, t, o, changeFailed, now);
      OneReplaced(db.runs, t.run.id, SeenRun(world, db.runs[t.run.id], t, o, changeFailed, now));
    }
  }

  lemma OneReplaced(runs: Runs, r: Id, next: Run)
    requires r in runs
    ensures OnlyRun(runs, runs[r := next], r) && runs[r := next][r] == next
  {
  }

  lemma SeenRunIs(world: World, run: Run, t: Ticket, o: Observation, changeFailed: bool, now: nat)
    requires RunOk(run) && o.Seen? && Reportable(o) && t.node in run.steps
    requires !TerminalStep(run.steps[t.node]) && run.steps[t.node].attemptId.Some?
    ensures var next := SeenRun(world, run, t, o, changeFailed, now);
            && RunTaken(run, t.node, next) && t.node in next.steps && StepTaken(world.catalog, run, t.node, o, now, next.steps[t.node])
            && next.revision == run.revision + (if LooksSame(run.steps[t.node], next.steps[t.node]) then 0 else 1)
  {
    var s, declared, stopping := run.steps[t.node], DeclaredOutputs(world.catalog, run.graph, t.node), run.state.RunStopping?;
    var next := ObservedStep(s, t.step, o, changeFailed, declared, stopping, now);
    ObservedOk(s, t.step, o, changeFailed, declared, stopping, now);
    ObservedIsTaken(world.catalog, run, t.node, t.step, o, changeFailed, now);
    var revision := run.revision + (if Visible(s) != Visible(next) then 1 else 0);
    HadAttempt(s, next);
    VisibleMeans(s, next);
    UpdateIsTaken(run, t.node, next, revision);
    SeenRunUpdates(world, run, t, o, changeFailed, now, next, revision);
  }

  lemma HadAttempt(s: RunStep, t: RunStep)
    requires StepOk(s) && s.attemptId.Some? && StepProgress(s, t)
    ensures t.generation > 0
  {
  }

  lemma SeenRunUpdates(world: World, run: Run, t: Ticket, o: Observation, changeFailed: bool, now: nat, next: RunStep, revision: nat)
    requires o.Seen? && t.node in run.steps
    requires next == ObservedStep(run.steps[t.node], t.step, o, changeFailed, DeclaredOutputs(world.catalog, run.graph, t.node), run.state.RunStopping?, now)
    requires revision == run.revision + (if Visible(run.steps[t.node]) != Visible(next) then 1 else 0)
    ensures SeenRun(world, run, t, o, changeFailed, now) == Aggregated(SetStep(run, t.node, next).(revision := revision))
  {
  }

  lemma SightingIs(world: World, db: Database, t: Ticket, o: Observation, changeFailed: bool, now: nat)
    requires o.Seen? && Answers(db.runs, t, o)
    ensures CommittedIn(world, db, t, o, changeFailed, now).runs
            == db.runs[t.run.id := SeenRun(world, db.runs[t.run.id], t, o, changeFailed, now)]
  {
  }

  /** The step has no fresh result: everything that identifies its attempt and its outputs is kept. */
  predicate SameWork(s: RunStep, t: RunStep) {
    t.attemptId == s.attemptId && t.generation == s.generation && t.retries == s.retries && t.inputs == s.inputs && t.outputs == s.outputs
  }

  predicate SameNews(a: Run, b: Run, n: Id)
    requires n in a.steps && n in b.steps
  {
    b.state == a.state && b.steps[n].state == a.steps[n].state && b.steps[n].message == a.steps[n].message
  }

  /** An attempt its adapter does not know: ended if the run is stopping, unclear otherwise. */
  ghost predicate AbsenceTaken(a: Runs, r: Id, n: Id, now: nat, b: Runs)
    requires HasStep(a, r, n)
  {
    && OnlyRun(a, b, r) && n in b[r].steps && SameWork(a[r].steps[n], b[r].steps[n])
    && (if a[r].state.RunStopping? then RunTaken(a[r], n, b[r]) && b[r].steps[n].state.Stopped? && b[r].revision == a[r].revision + 1
        else
          && b[r].revision == a[r].revision + (if SameNews(a[r], b[r], n) then 0 else 1) && PollsLater(b[r].steps[n], now)
          && b[r].state.RunAttention? && b[r].steps[n].state.Unknown? && b[r].steps == a[r].steps[n := b[r].steps[n]])
  }

  lemma AbsenceCommitted(world: World, db: Database, t: Ticket, changeFailed: bool, now: nat)
    requires RunsOk(db.runs) && t.step.attemptId.Some?
    ensures if Answers(db.runs, t, Absent)
            then AbsenceTaken(db.runs, t.run.id, t.node, now, CommittedIn(world, db, t, Absent, changeFailed, now).runs)
            else CommittedIn(world, db, t, Absent, changeFailed, now) == db
  {
    if Answers(db.runs, t, Absent) {
      RunOf(db.runs, t.run.id);
      AbsentIs(world, db, t, changeFailed, now);
      AbsentRunIs(db.runs[t.run.id], t.node, now);
      OneReplaced(db.runs, t.run.id, AbsentRun(db.runs[t.run.id], t.node, now));
    }
  }

  lemma AbsentIs(world: World, db: Database, t: Ticket, changeFailed: bool, now: nat)
    requires Answers(db.runs, t, Absent)
    ensures CommittedIn(world, db, t, Absent, changeFailed, now).runs == db.runs[t.run.id := AbsentRun(db.runs[t.run.id], t.node, now)]
  {
  }

  lemma AbsentRunIs(run: Run, n: Id, now: nat)
    requires RunOk(run) && n in run.steps && !TerminalStep(run.steps[n]) && run.steps[n].attemptId.Some?
    ensures var next := AbsentRun(run, n, now);
            && n in next.steps && SameWork(run.steps[n], next.steps[n])
            && (if run.state.RunStopping? then RunTaken(run, n, next) && next.steps[n].state.Stopped? && next.revision == run.revision + 1
                else
                  && next.revision == run.revision + (if SameNews(run, next, n) then 0 else 1) && PollsLater(next.steps[n], now)
                  && next.state.RunAttention? && next.steps[n].state.Unknown? && next.steps == run.steps[n := next.steps[n]])
  {
    DelaysGrow(OrZero(run.steps[n].pollFailures) + 1, OrZero(run.steps[n].pollFailures) + 1, 5000);
    if run.state.RunStopping? {
      var step := run.steps[n].(state := Stopped, message := Some(ConfirmedAbsent));
      UpdateIsTaken(run, n, step, run.revision);
      assert SetStep(run, n, step).(revision := run.revision) == SetStep(run, n, step);
      var stopped := Aggregated(SetStep(run, n, step));
      PolledIsTaken(run, n, stopped, now, run.revision + 1);
    }
  }

  lemma PolledIsTaken(run: Run, n: Id, stopped: Run, now: nat, revision: nat)
    requires n in run.steps && n in stopped.steps && RunTaken(run, n, stopped)
    ensures RunTaken(run, n, SetStep(stopped, n, PolledAgain(stopped.steps[n], now)).(revision := revision))
  {
    var next := SetStep(stopped, n, PolledAgain(stopped.steps[n], now)).(revision := revision);
    forall m | m in run.steps && m != n ensures OnlyStoppedUpstream(run, next, m) {
      assert OnlyStoppedUpstream(run, stopped, m);
    }
    assert forall m :: m in next.steps ==> next.steps[m].state == stopped.steps[m].state;
    SameStatesTell(stopped, next, run.state.RunStopping?);
  }

  lemma SameStatesTell(a: Run, b: Run, stopping: bool)
    requires StateTells(a, stopping) && b.state == a.state && b.steps.Keys == a.steps.Keys
    requires forall m :: m in b.steps ==> b.steps[m].state == a.steps[m].state
    ensures StateTells(b, stopping)
  {
  }

  /** What committing an observation changes. */
  ghost predicate CommitTaken(catalog: Catalog, a: Runs, t: Ticket, o: Observation, now: nat, b: Runs) {
    if !Answers(a, t, o) then b == a
    else if o.Seen? then SightingTaken(catalog, a, t.run.id, t.node, o, now, b)
    else AbsenceTaken(a, t.run.id, t.node, now, b)
  }

  lemma CommitIsTaken(world: World, db: Database, t: Ticket, o: Observation, changeFailed: bool, now: nat)
    ensures RunsOk(db.runs) && Reportable(o) && t.step.attemptId.Some? ==>
              CommitTaken(world.catalog, db.runs, t, o, now, CommittedIn(world, db, t, o, changeFailed, now).runs)
  {
    if RunsOk(db.runs) && Reportable(o) && t.step.attemptId.Some? {
      if o.Seen? {
        SightingCommitted(world, db, t, o, changeFailed, now);
      } else {
        AbsenceCommitted(world, db, t, changeFailed, now);
      }
    }
  }

  /** The step ended without an adapter: stopped in a stopping run, failed otherwise. */
  ghost predicate EndTaken(a: Runs, r: Id, n: Id, b: Runs)
    requires HasStep(a, r, n)
  {
    && OnlyRun(a, b, r) && RunTaken(a[r], n, b[r]) && SameWork(a[r].steps[n], b[r].steps[n])
    && b[r].revision == a[r].revision + 1
    && b[r].steps[n].state == if a[r].state.RunStopping? then Stopped else Failed
  }

  lemma EndedIsTaken(runs: Runs, r: Id, n: Id, message: Option<Message>, revision: nat)
    requires RunsOk(runs) && HasStep(runs, r, n) && !TerminalStep(runs[r].steps[n]) && revision == runs[r].revision + 1
    ensures var state := if runs[r].state.RunStopping? then Stopped else Failed;
            EndTaken(runs, r, n, runs[r := Aggregated(SetStep(runs[r], n, runs[r].steps[n].(state := state, message := message)).(revision := revision))])
  {
    RunOf(runs, r);
    var state := if runs[r].state.RunStopping? then Stopped else Failed;
    EndedRun(runs[r], n, state, message, revision);
    OneReplaced(runs, r, Aggregated(SetStep(runs[r], n, runs[r].steps[n].(state := state, message := message)).(revision := revision)));
  }

  lemma EndedRun(run: Run, n: Id, state: StepState, message: Option<Message>, revision: nat)
    requires RunOk(run) && n in run.steps && !TerminalStep(run.steps[n]) && state in {Stopped, Failed}
    ensures var next := Aggregated(SetStep(run, n, run.steps[n].(state := state, message := message)).(revision := revision));
            && RunTaken(run, n, next) && n in next.steps && next.steps[n] == run.steps[n].(state := state, message := message)
            && next.revision == revision
  {
    EndedStepMoves(run.steps[n], state, message);
    UpdateIsTaken(run, n, run.steps[n].(state := state, message := message), revision);
  }

  lemma EndedStepMoves(s: RunStep, state: StepState, message: Option<Message>)
    requires StepOk(s) && !TerminalStep(s) && state in {Stopped, Failed}
    ensures var t := s.(state := state, message := message); StepOk(t) && StepProgress(s, t) && !Waiting(t)
  {
  }

  lemma RejectionTaken(db: Database, t: Ticket, reason: Rejection)
    requires RunsOk(db.runs)
    ensures if Unfinished(db.runs, t) then EndTaken(db.runs, t.run.id, t.node, RejectedIn(db, t, reason).runs) else RejectedIn(db, t, reason) == db
  {
    if Unfinished(db.runs, t) {
      EndedIsTaken(db.runs, t.run.id, t.node, Some(RejectedFor(reason)), db.runs[t.run.id].revision + 1);
      RejectedIs(db, t, reason);
    }
  }

  /** What refusing to start changes. */
  ghost predicate RejectTaken(a: Runs, t: Ticket, b: Runs) {
    if Unfinished(a, t) then EndTaken(a, t.run.id, t.node, b) else b == a
  }

  lemma RejectIsTaken(db: Database, t: Ticket, reason: Rejection)
    ensures RunsOk(db.runs) ==> RejectTaken(db.runs, t, RejectedIn(db, t, reason).runs)
  {
    if RunsOk(db.runs) {
      RejectionTaken(db, t, reason);
    }
  }

  lemma RejectedIs(db: Database, t: Ticket, reason: Rejection)
    requires Unfinished(db.runs, t)
    ensures var run := db.runs[t.run.id];
            var state := if run.state.RunStopping? then Stopped else Failed;
            RejectedIn(db, t, reason).runs
            == db.runs[t.run.id := Aggregated(SetStep(run, t.node, run.steps[t.node].(state := state, message := Some(RejectedFor(reason))))
                                              .(revision := run.revision + 1))]
  {
  }

  /** Asked again after five seconds at the earliest and five minutes at the latest. */
  predicate PollsLater(s: RunStep, now: nat) {
    s.nextPollAt.Some? && now + 5000 <= s.nextPollAt.value <= now + 300000
  }

  /** An unclear outcome keeps the attempt in flight and the run as it is. */
  predicate UnclearTaken(a: Runs, r: Id, n: Id, now: nat, b: Runs)
    requires HasStep(a, r, n)
  {
    && OnlyRun(a, b, r) && n in b[r].steps && SameWork(a[r].steps[n], b[r].steps[n])
    && b[r].state == a[r].state && b[r].steps == a[r].steps[n := b[r].steps[n]] && PollsLater(b[r].steps[n], now)
    && b[r].revision == a[r].revision + (if a[r].steps[n].message == b[r].steps[n].message then 0 else 1)
    && b[r].steps[n].state == if a[r].steps[n].state.Dispatching? then Dispatching else Unknown
  }

  lemma FailureTaken(db: Database, t: Ticket, now: nat)
    ensures if Unfinished(db.runs, t) then UnclearTaken(db.runs, t.run.id, t.node, now, FailedIn(db, t, now).runs) else FailedIn(db, t, now) == db
  {
    if Unfinished(db.runs, t) {
      DelaysGrow(OrZero(db.runs[t.run.id].steps[t.node].pollFailures) + 1, OrZero(db.runs[t.run.id].steps[t.node].pollFailures) + 1, 5000);
    }
  }

  lemma PendingStopTaken(db: Database, r: Id, n: Id)
    requires RunsOk(db.runs) && HasStep(db.runs, r, n)
    ensures var s := db.runs[r].steps[n];
            if db.runs[r].state.RunStopping? && s.attemptId.None? && !TerminalStep(s)
            then EndTaken(db.runs, r, n, PendingStoppedIn(db, r, n).runs) else PendingStoppedIn(db, r, n) == db
  {
    var s := db.runs[r].steps[n];
    if db.runs[r].state.RunStopping? && s.attemptId.None? && !TerminalStep(s) {
      EndedIsTaken(db.runs, r, n, s.message, db.runs[r].revision + 1);
      PendingStopRun(db, r, n);
    }
  }

  lemma PendingStopRun(db: Database, r: Id, n: Id)
    requires HasStep(db.runs, r, n) && db.runs[r].state.RunStopping?
    requires db.runs[r].steps[n].attemptId.None? && !TerminalStep(db.runs[r].steps[n])
    ensures PendingStoppedIn(db, r, n).runs
            == db.runs[r := Aggregated(SetStep(db.runs[r], n, db.runs[r].steps[n].(state := Stopped, message := db.runs[r].steps[n].message))
                                       .(revision := db.runs[r].revision + 1))]
  {
  }

  /** The step may be dispatched: pending, due, in a run that is not stopping, after succeeded predecessors. */
  predicate Dispatchable(runs: Runs, r: Id, n: Id, now: nat)
    requires HasStep(runs, r, n)
  {
    var s := runs[r].steps[n];
    && s.state.Pending? && !runs[r].state.RunStopping?
    && (s.nextPollAt.Some? ==> s.nextPollAt.value <= now) && (s.nextAttemptAt.Some? ==> s.nextAttemptAt.value <= now)
    && forall e :: e in runs[r].graph.edges && e.to.node == n ==>
         e.from.node in runs[r].steps && runs[r].steps[e.from.node].state.Succeeded?
  }

  predicate DispatchTaken(a: Runs, r: Id, n: Id, x: Id, b: Runs)
    requires HasStep(a, r, n)
  {
    && OnlyRun(a, b, r) && n in b[r].steps && b[r].state.RunRunning? && b[r].graph == a[r].graph
    && b[r].revision == a[r].revision + 1
    && b[r].steps == a[r].steps[n := b[r].steps[n]]
    && b[r].steps[n].state.Dispatching? && b[r].steps[n].attemptId == Some(x)
    && b[r].steps[n].generation == a[r].steps[n].generation + 1 && b[r].steps[n].outputs == a[r].steps[n].outputs
  }

  /** Nothing but the time of the next attempt. */
  predicate WaitTaken(a: Runs, r: Id, n: Id, b: Runs)
    requires HasStep(a, r, n)
  {
    && OnlyRun(a, b, r) && n in b[r].steps && b[r] == a[r].(steps := b[r].steps)
    && b[r].steps == a[r].steps[n := a[r].steps[n].(nextAttemptAt := b[r].steps[n].nextAttemptAt)]
  }

  /** A prepare transaction dispatches exactly the dispatchable step; a step without an attempt in a stopping run it stops. */
  lemma PreparationTaken(db: Database, r: Id, n: Id, x: Id, now: nat)
    requires RunsOk(db.runs) && HasStep(db.runs, r, n)
    ensures var next := PreparedIn(db, r, n, x, now).db.runs;
            if Dispatchable(db.runs, r, n, now) then DispatchTaken(db.runs, r, n, x, next)
            else
              || WaitTaken(db.runs, r, n, next)
              || (db.runs[r].state.RunStopping? && db.runs[r].steps[n].attemptId.None? && EndTaken(db.runs, r, n, next))
  {
    var run := db.runs[r];
    var s := run.steps[n];
    PendingHasNoAttempt(db.runs, r, n);
    if Dispatchable(db.runs, r, n, now) {
      DispatchIs(db, r, n, x, now);
    } else if !TerminalStep(s) && !Later(s.nextPollAt, now) && run.state.RunStopping? && s.attemptId.None? {
      PreparationStops(db, r, n, x, now);
    } else {
      NothingDispatched(db, r, n, x, now);
    }
  }

  lemma PreparationStops(db: Database, r: Id, n: Id, x: Id, now: nat)
    requires RunsOk(db.runs) && HasStep(db.runs, r, n)
    requires !TerminalStep(db.runs[r].steps[n]) && !Later(db.runs[r].steps[n].nextPollAt, now)
    requires db.runs[r].state.RunStopping? && db.runs[r].steps[n].attemptId.None?
    ensures EndTaken(db.runs, r, n, PreparedIn(db, r, n, x, now).db.runs)
  {
    PreparedStopIs(db, r, n, x, now);
    StoppedLaterIsTaken(db.runs, r, n, db.runs[r].steps[n].message);
  }

  lemma PendingHasNoAttempt(runs: Runs, r: Id, n: Id)
    requires RunsOk(runs) && HasStep(runs, r, n)
    ensures runs[r].steps[n].state.Pending? ==> runs[r].steps[n].attemptId.None?
  {
    RunOf(runs, r);
    assert StepOk(runs[r].steps[n]);
  }

  lemma DispatchIs(db: Database, r: Id, n: Id, x: Id, now: nat)
    requires HasStep(db.runs, r, n) && Dispatchable(db.runs, r, n, now)
    ensures DispatchTaken(db.runs, r, n, x, PreparedIn(db, r, n, x, now).db.runs)
  {
    var run := db.runs[r];
    assert Ready(run.graph.edges, run.steps, n);
    assert PreparedIn(db, r, n, x, now).db.runs == db.runs[r := Dispatched(run, n, x)];
  }

  lemma PreparedStopIs(db: Database, r: Id, n: Id, x: Id, now: nat)
    requires HasStep(db.runs, r, n) && !TerminalStep(db.runs[r].steps[n]) && !Later(db.runs[r].steps[n].nextPollAt, now)
    requires db.runs[r].state.RunStopping? && db.runs[r].steps[n].attemptId.None?
    ensures PreparedIn(db, r, n, x, now).db.runs == db.runs[r := StoppedLater(db.runs[r], n, db.runs[r].steps[n].message)]
  {
    assert SetStep(db.runs[r], n, db.runs[r].steps[n].(state := Stopped)).(revision := db.runs[r].revision)
           == SetStep(db.runs[r], n, db.runs[r].steps[n].(state := Stopped));
  }

  /** The step stopped, and the revision after it. */
  ghost function StoppedLater(run: Run, n: Id, message: Option<Message>): Run
    requires n in run.steps
  {
    var stopped := Aggregated(SetStep(run, n, run.steps[n].(state := Stopped, message := message)).(revision := run.revision));
    NextRevision(stopped)
  }

  function NextRevision(run: Run): Run {
    run.(revision := run.revision + 1)
  }

  lemma StoppedLaterIsTaken(runs: Runs, r: Id, n: Id, message: Option<Message>)
    requires RunsOk(runs) && HasStep(runs, r, n) && !TerminalStep(runs[r].steps[n]) && runs[r].state.RunStopping?
    ensures EndTaken(runs, r, n, runs[r := StoppedLater(runs[r], n, message)])
  {
    RunOf(runs, r);
    StoppedLaterRun(runs[r], n, message);
    OneReplaced(runs, r, StoppedLater(runs[r], n, message));
  }

  lemma StoppedLaterRun(run: Run, n: Id, message: Option<Message>)
    requires RunOk(run) && n in run.steps && !TerminalStep(run.steps[n])
    ensures RunTaken(run, n, StoppedLater(run, n, message)) && n in StoppedLater(run, n, message).steps
    ensures StoppedLater(run, n, message).steps[n] == run.steps[n].(state := Stopped, message := message)
    ensures StoppedLater(run, n, message).revision == run.revision + 1
  {
    EndedRun(run, n, Stopped, message, run.revision);
    RevisionUntold(run, n, Aggregated(SetStep(run, n, run.steps[n].(state := Stopped, message := message)).(revision := run.revision)));
  }

  lemma RevisionUntold(run: Run, n: Id, next: Run)
    requires RunTaken(run, n, next)
    ensures RunTaken(run, n, NextRevision(next)) && NextRevision(next).steps == next.steps
  {
    forall m | m in run.steps && m != n ensures OnlyStoppedUpstream(run, NextRevision(next), m) {
      assert OnlyStoppedUpstream(run, next, m);
    }
    SameStatesTell(next, NextRevision(next), run.state.RunStopping?);
  }

  lemma NothingDispatched(db: Database, r: Id, n: Id, x: Id, now: nat)
    requires HasStep(db.runs, r, n) && !Dispatchable(db.runs, r, n, now) && (db.runs[r].steps[n].state.Pending? ==> db.runs[r].steps[n].attemptId.None?)
    requires TerminalStep(db.runs[r].steps[n]) || Later(db.runs[r].steps[n].nextPollAt, now)
             || !db.runs[r].state.RunStopping? || db.runs[r].steps[n].attemptId.Some?
    ensures WaitTaken(db.runs, r, n, PreparedIn(db, r, n, x, now).db.runs)
  {
    var run := db.runs[r];
    var waiting := SetStep(run, n, run.steps[n].(nextAttemptAt := None));
    assert run.steps[n := run.steps[n]] == run.steps;
    assert db.runs[r := run] == db.runs;
    assert Ready(run.graph.edges, run.steps, n) <==>
           forall e :: e in run.graph.edges && e.to.node == n ==> e.from.node in run.steps && run.steps[e.from.node].state.Succeeded?;
    assert PreparedIn(db, r, n, x, now).db.runs == db.runs || PreparedIn(db, r, n, x, now).db.runs == db.runs[r := waiting];
  }
}
