/** The run service itself: its transactions on the stored runs (packages/run-control/service.ts). */
module RunService {
  import opened Wrappers
  import opened PipelineModel
  import opened Inspection
  import opened RunModel
  import opened RunLoops
  import RunLedger
  import RunCauses

  class RunControl {
    const world: World
    var runs: map<Id, Run>
    var attempts: seq<Attempt>
    var events: seq<Event>

    ghost function Data(): Database
      reads this
    {
      Database(runs, attempts, events)
    }

    constructor (world: World)
      ensures Data() == Database(map[], [], []) && this.world == world
    {
      this.world := world;
      runs, attempts, events := map[], [], [];
    }

    /** Stores one changed run and one event. */
    method Store(id: Id, run: Run, kind: EventKind)
      modifies this
      ensures Data() == Note(old(Data()).(runs := old(runs)[id := run]), id, kind)
    {
      runs, events := runs[id := run], events + [Event(id, kind)];
    }

    /** Accepts a run of an executable graph, unless the same plan is already running. */
    method StartRun(id: Id, workspace: Id, graphRevision: nat, g: Graph, actor: Id, capabilities: map<Id, Capabilities>, fingerprint: Id)
      modifies this
      ensures Data() == if Executable(world.catalog, g)
                        then Started(world, old(Data()), id, workspace, graphRevision, g, actor, capabilities, fingerprint) else old(Data())
    {
      var issues, order := Inspect(world.catalog, g);
      if issues != [] {
        return;
      }
      if exists k :: k in runs && DuplicateOf(world, runs[k], workspace, actor, g.id, graphRevision, fingerprint) {
        return;
      }
      var run := NewRun(world, id, workspace, graphRevision, g, actor, capabilities);
      Store(id, run.(fingerprint := Some(fingerprint)), Accepted);
    }

    method StopRun(id: Id, expectedRevision: nat)
      modifies this
      ensures Data() == StopRequestedIn(old(Data()), id, expectedRevision)
    {
      if id !in runs || runs[id].revision != expectedRevision || TerminalRun(runs[id].state) {
        return;
      }
      var run := runs[id];
      var steps := ClearPolls(run.steps);
      Store(id, run.(state := RunStopping, revision := run.revision + 1, steps := steps), StopRequested);
    }

    method ResumeRun(id: Id, expectedRevision: nat)
      modifies this
      ensures Data() == ResumedIn(old(Data()), id, expectedRevision)
    {
      if id !in runs || runs[id].revision != expectedRevision {
        return;
      }
      var run := runs[id];
      if !AllTerminal(run.steps) || !exists n :: n in run.steps && Unsuccessful(run.steps[n]) {
        return;
      }
      var steps := ResumeSteps(run.steps);
      Store(id, run.(state := RunQueued, revision := run.revision + 1, steps := steps), ResumeRequested);
    }

    /** Applies the change exactly as previewed, online or in a new branch beside the run. */
    method ApplyChange(id: Id, expected: Preview, changeId: Id, branchId: Id, actor: Id)
      modifies this
      ensures Data() == ChangedIn(world, old(Data()), id, expected, changeId, branchId, actor)
    {
      if id !in runs {
        return;
      }
      var run := runs[id];
      var preview := PreviewChange(world, run, expected.revision, expected.node, expected.config);
      if preview.Failure? || preview.value != expected || expected.mode.Refused? {
        return;
      }
      if expected.mode.Online? {
        if run.steps[expected.node].change.Some? {
          return;
        }
        Store(id, OnlineRun(run, expected.node, expected.config, changeId), ChangeRequested);
      } else {
        Store(branchId, BranchRun(world, run, expected, branchId, actor), Branched);
      }
    }

    /** The first transaction of an advance: an intent is on record before anything is called. */
    method Prepare(id: Id, n: Id, attemptId: Id, now: nat) returns (ticket: Option<Ticket>)
      requires id in runs && n in runs[id].steps
      modifies this
      ensures Prepared(Data(), ticket) == PreparedIn(old(Data()), id, n, attemptId, now)
    {
      var run := runs[id];
      var step := run.steps[n];
      if TerminalStep(step) || Later(step.nextPollAt, now) {
        return None;
      }
      if run.state.RunStopping? && step.attemptId.None? {
        var stopped := Aggregate(SetStep(run, n, step.(state := Stopped)));
        runs := runs[id := stopped.(revision := stopped.revision + 1)];
        return None;
      }
      if !step.state.Pending? {
        return if step.attemptId.Some? then Some(Ticket(run, n, step)) else None;
      }
      if Later(step.nextAttemptAt, now) {
        return None;
      }
      if !Ready(run.graph.edges, run.steps, n) {
        runs := runs[id := SetStep(run, n, step.(nextAttemptAt := None))];
        return None;
      }
      var inputs := CollectInputs(run.graph.edges, run.steps, n);
      var dispatched := step.(nextAttemptAt := None, inputs := inputs, attemptId := Some(attemptId),
                              generation := step.generation + 1, state := Dispatching);
      var next := SetStep(run, n, dispatched).(state := RunRunning, revision := run.revision + 1);
      attempts := attempts + [Attempt(id, n, attemptId, dispatched.generation, None)];
      Store(id, next, DispatchIntent);
      ticket := Some(Ticket(next, n, dispatched));
    }

    method StopPending(id: Id, n: Id)
      requires id in runs && n in runs[id].steps
      modifies this
      ensures Data() == PendingStoppedIn(old(Data()), id, n)
    {
      var run := runs[id];
      var step := run.steps[n];
      if run.state.RunStopping? && step.attemptId.None? && !TerminalStep(step) {
        var next := Aggregate(SetStep(run, n, step.(state := Stopped)).(revision := run.revision + 1));
        Store(id, next, StepStopped);
      }
    }

    method RejectUnstarted(t: Ticket, reason: Rejection)
      modifies this
      ensures Data() == RejectedIn(old(Data()), t, reason)
      ensures RunLedger.RunsOk(old(runs)) ==> RunCauses.RejectTaken(old(runs), t, runs)
    {
      RunCauses.RejectIsTaken(Data(), t, reason);
      if StillTheAttempt(t) {
        var run := runs[t.run.id];
        var step := run.steps[t.node].(state := if run.state.RunStopping? then Stopped else Failed, message := Some(RejectedFor(reason)));
        var next := Aggregate(SetStep(run, t.node, step).(revision := run.revision + 1));
        Store(t.run.id, next, StepRejected(reason));
      }
    }

    predicate StillTheAttempt(t: Ticket)
      reads this
      ensures StillTheAttempt(t) == StillCurrent(Data(), t)
    {
      && t.run.id in runs && t.node in runs[t.run.id].steps
      && runs[t.run.id].steps[t.node].attemptId == t.step.attemptId
      && !TerminalStep(runs[t.run.id].steps[t.node])
    }

    /** An unclear outcome leaves the attempt in flight, to be looked at again; a dispatch may still be repeated. */
    method RecordUnknown(t: Ticket, now: nat)
      modifies this
      ensures Data() == FailedIn(old(Data()), t, now)
      ensures !old(StillTheAttempt(t)) ==> runs == old(runs)
      ensures old(StillTheAttempt(t)) ==>
                && runs.Keys == old(runs).Keys && t.node in runs[t.run.id].steps
                && runs[t.run.id].state == old(runs)[t.run.id].state
                && SameAttempt(old(runs)[t.run.id].steps[t.node], runs[t.run.id].steps[t.node])
    {
      if StillTheAttempt(t) {
        var run := runs[t.run.id];
        var step := run.steps[t.node];
        var revision := if step.message != Some(OutcomeUnknown) then run.revision + 1 else run.revision;
        runs := runs[t.run.id := SetStep(run, t.node, FailedStep(step, now)).(revision := revision)];
      }
    }

    /** The second transaction of an advance: only an observation of the live attempt and generation is taken over. */
    method CommitObservation(t: Ticket, o: Observation, changeFailed: bool, now: nat)
      modifies this
      ensures Data() == CommittedIn(world, old(Data()), t, o, changeFailed, now)
      ensures RunLedger.RunsOk(old(runs)) && Reportable(o) && t.step.attemptId.Some? ==>
                RunCauses.CommitTaken(world.catalog, old(runs), t, o, now, runs)
    {
      RunCauses.CommitIsTaken(world, Data(), t, o, changeFailed, now);
      if !StillTheAttempt(t) || runs[t.run.id].steps[t.node].generation != t.step.generation {
        return;
      }
      if o.Absent? {
        CommitAbsence(t, now);
      } else if Some(o.attemptId) == t.step.attemptId && o.generation == t.step.generation {
        CommitSighting(t, o, changeFailed, now);
      }
    }

    method CommitAbsence(t: Ticket, now: nat)
      requires StillTheAttempt(t)
      modifies this
      ensures Data() == var was := old(Data());
                        var next := was.(runs := was.runs[t.run.id := AbsentRun(was.runs[t.run.id], t.node, now)]);
                        if was.runs[t.run.id].state.RunStopping? then Note(next, t.run.id, StepStopped) else next
    {
      var run := runs[t.run.id];
      var step := run.steps[t.node];
      if run.state.RunStopping? {
        var stopped := Aggregate(SetStep(run, t.node, step.(state := Stopped, message := Some(ConfirmedAbsent))));
        Store(t.run.id, SetStep(stopped, t.node, PolledAgain(stopped.steps[t.node], now)).(revision := run.revision + 1), StepStopped);
      } else {
        var unknown := step.(state := Unknown, message := Some(RecordMissing));
        var changed := !(step.state.Unknown? && step.message == unknown.message && run.state.RunAttention?);
        var next := SetStep(run, t.node, PolledAgain(unknown, now)).(state := RunAttention, revision := if changed then run.revision + 1 else run.revision);
        runs := runs[t.run.id := next];
      }
    }

    method CommitSighting(t: Ticket, o: Observation, changeFailed: bool, now: nat)
      requires StillTheAttempt(t) && o.Seen? && Some(o.attemptId) == t.step.attemptId
      modifies this
      ensures var was := old(Data());
              var current := was.runs[t.run.id].steps[t.node];
              var next := ObservedStep(current, t.step, o, changeFailed, DeclaredOutputs(world.catalog, was.runs[t.run.id].graph, t.node),
                                       was.runs[t.run.id].state.RunStopping?, now);
              Data() == Database(was.runs[t.run.id := SeenRun(world, was.runs[t.run.id], t, o, changeFailed, now)],
                                 WithObservation(was.attempts, o.attemptId, o), was.events + SeenEvents(t.run.id, current, next))
    {
      var run := runs[t.run.id];
      var current := run.steps[t.node];
      var next := ObservedStep(current, t.step, o, changeFailed, DeclaredOutputs(world.catalog, run.graph, t.node), run.state.RunStopping?, now);
      var revision := if Visible(current) != Visible(next) then run.revision + 1 else run.revision;
      var updated := Aggregate(SetStep(run, t.node, next).(revision := revision));
      attempts := RecordObservation(attempts, o.attemptId, o);
      runs, events := runs[t.run.id := updated], events + SeenEvents(t.run.id, current, next);
    }
  }
}
