/** What one observation does to a step and its run: which reports are believed, when a step ends, fails or is retried,
    and what the run becomes (packages/run-control/service.ts). */
module RunOutcomes {
  import opened Wrappers
  import opened PipelineModel
  import opened Reconciliation
  import opened RunModel
  import opened RunInvariants
  import Cycles

  /* ---------- the step ---------- */

  /** Every output that the node's type declares is there, with its kind. */
  ghost predicate Complete(catalog: Catalog, g: Graph, n: Id, outputs: Outputs) {
    FindNode(g.nodes, n).Some? && Lookup(catalog, FindNode(g.nodes, n).value.kind).Some? ==>
      forall p :: p in Lookup(catalog, FindNode(g.nodes, n).value.kind).value.ports.outputs ==>
        p.name in outputs && outputs[p.name].kind == p.kind
  }

  /** An end is believed only from the authority. */
  predicate Believed(o: Observation)
    requires o.Seen?
  {
    o.state in {Succeeded, Failed, Stopped} ==> o.terminalAuthority
  }

  predicate MayRetry(s: RunStep, o: Observation, stopping: bool)
    requires o.Seen?
  {
    && o.state.Failed? && o.terminalAuthority && o.retryable && !stopping
    && s.retries < 2 && s.capabilities.Some? && s.capabilities.value.safeRetry
  }

  predicate StateTaken(s: RunStep, o: Observation, complete: bool, stopping: bool, t: RunStep)
    requires o.Seen?
  {
    && (t.state.Succeeded? <==> o.state.Succeeded? && o.terminalAuthority && complete)
    && (t.state.Failed? <==> o.terminalAuthority && ((o.state.Failed? && !MayRetry(s, o, stopping)) || (o.state.Succeeded? && !complete)))
    && (t.state.Stopped? <==> o.state.Stopped? && o.terminalAuthority)
    && (t.state.Pending? <==> MayRetry(s, o, stopping))
    && (t.state.Unknown? <==> o.state.Unknown? || !Believed(o))
    && (t.state.Queued? <==> o.state.Queued?)
    && (t.state.Running? <==> o.state.Running?)
  }

  /** The attempt goes on or ends with the step; a retry gives it up and waits ten seconds, then twenty. */
  predicate AttemptTaken(s: RunStep, o: Observation, stopping: bool, now: nat, t: RunStep)
    requires o.Seen?
  {
    && t.generation == s.generation && t.inputs == s.inputs && t.config == s.config && t.capabilities == s.capabilities
    && t.outputs == (if t.state.Succeeded? then o.outputs else s.outputs)
    && (if MayRetry(s, o, stopping)
        then t.attemptId.None? && t.retries == s.retries + 1 && t.nextAttemptAt == Some(now + (if s.retries == 0 then 10000 else 20000))
        else t.attemptId == s.attemptId && t.retries == s.retries && t.nextAttemptAt == s.nextAttemptAt)
  }

  /** The newest believed checkpoint is kept, unless the step starts over and cannot use it. */
  predicate CheckpointTaken(s: RunStep, o: Observation, stopping: bool, t: RunStep)
    requires o.Seen?
  {
    t.checkpoint == if MayRetry(s, o, stopping) && !s.capabilities.value.checkpoint then None
                    else if Believed(o) && o.checkpoint.Some? then o.checkpoint else s.checkpoint
  }

  predicate Applied(s: RunStep, o: Observation)
    requires o.Seen?
  {
    Believed(o) && o.appliedConfig.Some? && s.change.Some? && s.change.value.config == o.appliedConfig.value
  }

  /** A requested change is pending until it was applied or its attempt is over. */
  predicate ChangeTaken(s: RunStep, o: Observation, stopping: bool, t: RunStep)
    requires o.Seen?
  {
    && t.actualConfig == (if Believed(o) && o.appliedConfig.Some? then o.appliedConfig.value else s.actualConfig)
    && (t.change.Some? <==> s.change.Some? && !TerminalStep(t) && !t.state.Pending? && !Applied(s, o))
    && (t.change.Some? ==> t.change.value.id == s.change.value.id && t.change.value.config == s.change.value.config)
  }

  /** The cursor is at the newest log entry seen in this attempt, and only an unclear step waits for its next poll. */
  ghost predicate CursorTaken(s: RunStep, o: Observation, t: RunStep)
    requires o.Seen?
  {
    && (t.nextPollAt.Some? <==> t.state.Unknown?)
    && (if t.state.Pending? then t.eventCursor == 0
        else
          && t.eventCursor >= s.eventCursor && (t.eventCursor == s.eventCursor || t.eventCursor in o.sequences)
          && forall x :: x in o.sequences ==> x <= t.eventCursor)
  }

  ghost predicate StepTaken(catalog: Catalog, run: Run, n: Id, o: Observation, now: nat, t: RunStep)
    requires o.Seen? && n in run.steps
  {
    var s := run.steps[n];
    var stopping := run.state.RunStopping?;
    && StateTaken(s, o, Complete(catalog, run.graph, n, o.outputs), stopping, t)
    && AttemptTaken(s, o, stopping, now, t)
    && CheckpointTaken(s, o, stopping, t)
    && ChangeTaken(s, o, stopping, t)
    && CursorTaken(s, o, t)
  }

  lemma {:induction false} NewestSequence(sequences: seq<nat>, cursor: nat)
    ensures var m := MaxSequence(sequences, cursor);
            m >= cursor && (m == cursor || m in sequences) && forall x :: x in sequences ==> x <= m
  {
    if sequences != [] {
      var next := if sequences[0] > cursor then sequences[0] else cursor;
      NewestSequence(sequences[1..], next);
      assert sequences == [sequences[0]] + sequences[1..];
    }
  }

  lemma CompleteMeans(catalog: Catalog, g: Graph, n: Id, outputs: Outputs)
    ensures Complete(catalog, g, n, outputs) <==> !MissesOutput(DeclaredOutputs(catalog, g, n), outputs)
  {
  }

  /* ---------- stage by stage ---------- */

  predicate SameChange(s: RunStep, t: RunStep) {
    && (t.change.Some? <==> s.change.Some?)
    && (t.change.Some? ==> t.change.value.id == s.change.value.id && t.change.value.config == s.change.value.config)
  }

  /** The stages leave these alone. */
  predicate SameFrame(s: RunStep, t: RunStep) {
    && t.generation == s.generation && t.inputs == s.inputs && t.config == s.config && t.capabilities == s.capabilities
    && t.eventCursor == s.eventCursor
  }

  predicate SameAttemptFields(s: RunStep, t: RunStep) {
    t.attemptId == s.attemptId && t.retries == s.retries && t.nextAttemptAt == s.nextAttemptAt
  }

  predicate SameResult(s: RunStep, t: RunStep) {
    t.outputs == s.outputs && t.checkpoint == s.checkpoint && t.actualConfig == s.actualConfig
  }

  lemma NotedStage(s: RunStep, was: RunStep, changeFailed: bool, now: nat)
    ensures var t := NotedStep(s, was, changeFailed, now);
            SameFrame(s, t) && SameAttemptFields(s, t) && SameResult(s, t) && SameChange(s, t) && t.nextPollAt.None?
  {
  }

  /** The report taken over, before a retry is considered. */
  predicate TakenOver(s: RunStep, o: Observation, complete: bool, t: RunStep)
    requires o.Seen?
  {
    && SameFrame(s, t) && SameAttemptFields(s, t) && t.nextPollAt == s.nextPollAt
    && t.state == (if o.state.Succeeded? && !complete then Failed else o.state)
    && t.outputs == (if o.state.Succeeded? && complete then o.outputs else s.outputs)
    && t.checkpoint == (if o.checkpoint.Some? then o.checkpoint else s.checkpoint)
    && t.actualConfig == (if o.appliedConfig.Some? then o.appliedConfig.value else s.actualConfig)
    && t.change == (if s.change.Some? && o.appliedConfig == Some(s.change.value.config) then None else s.change)
  }

  lemma TakenOverStage(s: RunStep, o: Observation, declared: seq<Port>)
    requires o.Seen?
    ensures TakenOver(s, o, !MissesOutput(declared, o.outputs), AppliedStep(FinishedStep(ReportedStep(s, o), o, declared), o))
  {
    var reported := ReportedStep(s, o);
    var finished := FinishedStep(reported, o, declared);
    FinishedStage(reported, o, declared);
    AppliedStage(finished, o);
  }

  lemma FinishedStage(s: RunStep, o: Observation, declared: seq<Port>)
    requires o.Seen?
    ensures var t := FinishedStep(s, o, declared);
            && t == s.(state := t.state, outputs := t.outputs, message := t.message)
            && t.state == (if o.state.Succeeded? && MissesOutput(declared, o.outputs) then Failed else s.state)
            && t.outputs == (if o.state.Succeeded? && !MissesOutput(declared, o.outputs) then o.outputs else s.outputs)
  {
  }

  lemma AppliedStage(s: RunStep, o: Observation)
    requires o.Seen?
    ensures var t := AppliedStep(s, o);
            && t == s.(actualConfig := t.actualConfig, effectiveStep := t.effectiveStep, change := t.change)
            && t.actualConfig == (if o.appliedConfig.Some? then o.appliedConfig.value else s.actualConfig)
            && t.change == (if s.change.Some? && o.appliedConfig == Some(s.change.value.config) then None else s.change)
  {
  }

  /** The observation judged: not believed, retried, or taken over. */
  predicate Judged(s: RunStep, o: Observation, complete: bool, stopping: bool, now: nat, t: RunStep)
    requires o.Seen?
  {
    && SameFrame(s, t) && t.nextPollAt == s.nextPollAt
    && (!Believed(o) ==> SameAttemptFields(s, t) && SameResult(s, t) && SameChange(s, t) && t.state.Unknown?)
    && (MayRetry(s, o, stopping) ==> RetriedTo(s, o, now, t))
    && (Believed(o) && !MayRetry(s, o, stopping) ==> TakenOver(s, o, complete, t))
  }

  predicate RetriedTo(s: RunStep, o: Observation, now: nat, t: RunStep)
    requires o.Seen? && s.capabilities.Some?
  {
    && t.state.Pending? && t.attemptId.None? && t.retries == s.retries + 1 && t.change.None? && t.outputs == s.outputs
    && t.nextAttemptAt == Some(now + (if s.retries == 0 then 10000 else 20000))
    && t.checkpoint == (if !s.capabilities.value.checkpoint then None else if o.checkpoint.Some? then o.checkpoint else s.checkpoint)
    && t.actualConfig == (if o.appliedConfig.Some? then o.appliedConfig.value else s.actualConfig)
  }

  lemma RetriedStage(s: RunStep, a: RunStep, o: Observation, complete: bool, stopping: bool, now: nat)
    requires o.Seen? && TakenOver(s, o, complete, a)
    ensures SameFrame(s, RetriedStep(a, o, stopping, now)) && RetriedStep(a, o, stopping, now).nextPollAt == s.nextPollAt
    ensures if MayRetry(s, o, stopping) then RetriedTo(s, o, now, RetriedStep(a, o, stopping, now)) else RetriedStep(a, o, stopping, now) == a
  {
    assert Power2(0) == 1 && Power2(1) == 2;
  }

  lemma JudgedStage(s: RunStep, o: Observation, declared: seq<Port>, stopping: bool, now: nat)
    requires o.Seen?
    ensures Judged(s, o, !MissesOutput(declared, o.outputs), stopping, now, JudgedStep(s, o, declared, stopping, now))
  {
    var taken := AppliedStep(FinishedStep(ReportedStep(s, o), o, declared), o);
    TakenOverStage(s, o, declared);
    RetriedStage(s, taken, o, !MissesOutput(declared, o.outputs), stopping, now);
    JudgedIs(s, o, declared, stopping, now);
  }

  lemma JudgedIs(s: RunStep, o: Observation, declared: seq<Port>, stopping: bool, now: nat)
    requires o.Seen?
    ensures JudgedStep(s, o, declared, stopping, now)
            == if Believed(o) then RetriedStep(AppliedStep(FinishedStep(ReportedStep(s, o), o, declared), o), o, stopping, now)
               else s.(state := Unknown, message := Some(AwaitingTerminal))
  {
  }

  lemma SettledStage(j: RunStep, was: RunStep, o: Observation, now: nat)
    requires o.Seen?
    ensures var t := SettledStep(j, was, o, now);
            && t == j.(eventCursor := t.eventCursor, change := t.change, pollFailures := t.pollFailures, nextPollAt := t.nextPollAt)
            && t.change == (if TerminalStep(j) then None else j.change)
            && (t.nextPollAt.Some? <==> j.state.Unknown? || j.nextPollAt.Some?)
            && t.eventCursor == (if j.state.Pending? then 0 else MaxSequence(o.sequences, j.eventCursor))
  {
  }

  lemma FromStages(s: RunStep, noted: RunStep, j: RunStep, t: RunStep, o: Observation, complete: bool, stopping: bool, now: nat)
    requires o.Seen? && Reportable(o)
    requires SameFrame(s, noted) && SameAttemptFields(s, noted) && SameResult(s, noted) && SameChange(s, noted) && noted.nextPollAt.None?
    requires Judged(noted, o, complete, stopping, now, j)
    requires t == j.(eventCursor := t.eventCursor, change := t.change, pollFailures := t.pollFailures, nextPollAt := t.nextPollAt)
    requires t.change == if TerminalStep(j) then None else j.change
    requires t.nextPollAt.Some? <==> j.state.Unknown? || j.nextPollAt.Some?
    ensures StateTaken(s, o, complete, stopping, t) && AttemptTaken(s, o, stopping, now, t)
    ensures CheckpointTaken(s, o, stopping, t) && ChangeTaken(s, o, stopping, t)
    ensures t.nextPollAt.Some? <==> t.state.Unknown?
  {
  }

  lemma ObservedIsTaken(catalog: Catalog, run: Run, n: Id, was: RunStep, o: Observation, changeFailed: bool, now: nat)
    requires o.Seen? && Reportable(o) && n in run.steps
    ensures StepTaken(catalog, run, n, o, now,
                      ObservedStep(run.steps[n], was, o, changeFailed, DeclaredOutputs(catalog, run.graph, n), run.state.RunStopping?, now))
  {
    var s, declared, stopping := run.steps[n], DeclaredOutputs(catalog, run.graph, n), run.state.RunStopping?;
    var noted := NotedStep(s, was, changeFailed, now);
    var j := JudgedStep(noted, o, declared, stopping, now);
    CompleteMeans(catalog, run.graph, n, o.outputs);
    NotedStage(s, was, changeFailed, now);
    JudgedStage(noted, o, declared, stopping, now);
    SettledStage(j, was, o, now);
    NewestSequence(o.sequences, s.eventCursor);
    FromStages(s, noted, j, SettledStep(j, was, o, now), o, !MissesOutput(declared, o.outputs), stopping, now);
  }

  /** The steps differ in their polling schedule only, which users do not see. */
  predicate LooksSame(s: RunStep, t: RunStep) {
    && t.(nextPollAt := s.nextPollAt, pollFailures := s.pollFailures, change := s.change) == s
    && (t.change.Some? <==> s.change.Some?)
    && (t.change.Some? ==>
          t.change.value.(nextAttemptAt := s.change.value.nextAttemptAt, failures := s.change.value.failures) == s.change.value)
  }

  lemma VisibleMeans(s: RunStep, t: RunStep)
    ensures Visible(s) == Visible(t) <==> LooksSame(s, t)
  {
  }

  /* ---------- the run ---------- */

  /** What the state of a run says after its steps were looked at. */
  ghost predicate StateTells(run: Run, stopping: bool) {
    var steps := run.steps;
    var over := forall n :: n in steps ==> TerminalStep(steps[n]);
    var done := forall n :: n in steps ==> steps[n].state.Succeeded?;
    var unclear := exists n :: n in steps && (steps[n].state.Failed? || steps[n].state.Unknown?);
    if stopping then (run.state.RunStopped? <==> over) && (run.state.RunStopping? <==> !over)
    else
      && (run.state.RunSucceeded? <==> done)
      && (run.state.RunFailed? <==> over && !done)
      && (run.state.RunAttention? <==> !over && unclear)
      && (run.state.RunRunning? <==> !over && !unclear)
  }

  lemma AggregatedTells(run: Run)
    ensures StateTells(Aggregated(run), run.state.RunStopping?)
  {
    var next := Aggregated(run);
    assert AllTerminal(next.steps) <==> forall n :: n in next.steps ==> TerminalStep(next.steps[n]);
    if !run.state.RunStopping? {
      assert next.state == Summary(next.steps);
      SummaryTells(next);
    }
  }

  lemma SummaryTells(run: Run)
    requires run.state == Summary(run.steps)
    ensures StateTells(run, false)
  {
  }

  /** A step that never started stops when one before it ended unsuccessfully; no other step is touched. */
  ghost predicate OnlyStoppedUpstream(run: Run, next: Run, m: Id)
    requires m in run.steps
  {
    && m in next.steps
    && (next.steps[m] != run.steps[m] ==>
          && !run.state.RunStopping? && run.steps[m].state.Pending? && run.steps[m].attemptId.None? && next.steps[m].state.Stopped?
          && exists e :: e in run.graph.edges && e.to.node == m && e.from.node in next.steps && Unsuccessful(next.steps[e.from.node]))
  }

  /** Step `n` was replaced, and the run drew the consequences. */
  ghost predicate RunTaken(run: Run, n: Id, next: Run) {
    && next.id == run.id && next.graph == run.graph && next.steps.Keys == run.steps.Keys
    && (forall m :: m in run.steps && m != n ==> OnlyStoppedUpstream(run, next, m))
    && StateTells(next, run.state.RunStopping?)
  }

  /** A step that was ever dispatched has succeeded predecessors, so nothing upstream can stop it. */
  lemma FedIsNotBlocked(run: Run, n: Id)
    requires Base(run) && n in run.steps && (run.steps[n].generation > 0 || !Waiting(run.steps[n]))
    ensures n !in Blocked(run.graph.edges, run.steps)
  {
    assert Fed(run.graph.edges, run.steps, n);
    if n in Blocked(run.graph.edges, run.steps) {
      BlockedHasCause(run.graph.edges, run.steps, n);
    }
  }

  /** Whatever is stopped has an unsuccessful step right before it afterwards. */
  lemma StoppedUpstream(run: Run, m: Id)
    requires Base(run) && m in run.steps
    ensures OnlyStoppedUpstream(run, Aggregated(run), m)
  {
    var blocked := Blocked(run.graph.edges, run.steps);
    if !run.state.RunStopping? && m in blocked {
      var walk :| BlockingWalk(run.graph.edges, run.steps, walk) && walk[|walk| - 1] == m;
      var k := |walk| - 2;
      assert Cycles.Linked(run.graph.edges, walk[k], walk[k + 1]);
      var e :| e in run.graph.edges && e.from.node == walk[k] && e.to.node == m;
      if k > 0 {
        WalkPrefix(run.graph.edges, run.steps, walk);
      }
      AggregatedSteps(run, e.from.node);
    }
  }

  lemma WalkPrefix(edges: seq<Edge>, steps: Steps, walk: seq<Id>)
    requires BlockingWalk(edges, steps, walk) && |walk| > 2
    ensures walk[|walk| - 2] in Blocked(edges, steps)
  {
    var shorter := walk[..|walk| - 1];
    forall k | 0 <= k < |shorter| - 1 ensures Cycles.Linked(edges, shorter[k], shorter[k + 1]) {
      assert Cycles.Linked(edges, walk[k], walk[k + 1]);
    }
    assert BlockingWalk(edges, steps, shorter) && shorter[|shorter| - 1] == walk[|walk| - 2];
  }

  lemma AggregatedSteps(run: Run, m: Id)
    requires m in run.steps
    ensures Aggregated(run).steps.Keys == run.steps.Keys
    ensures Aggregated(run).steps[m]
            == if !run.state.RunStopping? && m in Blocked(run.graph.edges, run.steps)
               then run.steps[m].(state := Stopped, message := Some(UpstreamFailed)) else run.steps[m]
  {
  }

  lemma OthersTaken(run: Run, updated: Run, next: Run, n: Id)
    requires n in run.steps && n in updated.steps && updated.steps == run.steps[n := updated.steps[n]]
    requires updated.id == run.id && updated.graph == run.graph && updated.state == run.state
    requires next.id == updated.id && next.graph == updated.graph && next.steps.Keys == updated.steps.Keys
    requires forall m :: m in updated.steps ==> OnlyStoppedUpstream(updated, next, m)
    requires StateTells(next, updated.state.RunStopping?)
    ensures RunTaken(run, n, next)
  {
    forall m | m in run.steps && m != n ensures OnlyStoppedUpstream(run, next, m) {
      assert OnlyStoppedUpstream(updated, next, m);
    }
  }

  lemma AggregateIsTaken(run: Run)
    requires Base(run)
    ensures var next := Aggregated(run);
            && next.id == run.id && next.graph == run.graph && next.steps.Keys == run.steps.Keys
            && (forall m :: m in run.steps ==> OnlyStoppedUpstream(run, next, m))
            && StateTells(next, run.state.RunStopping?)
  {
    AggregatedTells(run);
    AggregateProgress(run);
    forall m | m in run.steps ensures OnlyStoppedUpstream(run, Aggregated(run), m) {
      StoppedUpstream(run, m);
    }
  }

  lemma UpdateIsTaken(run: Run, n: Id, s: RunStep, revision: nat)
    requires Base(run) && n in run.steps && !TerminalStep(run.steps[n]) && StepOk(s) && StepProgress(run.steps[n], s)
    requires s.generation > 0 || !Waiting(s)
    ensures var next := Aggregated(SetStep(run, n, s).(revision := revision));
            RunTaken(run, n, next) && n in next.steps && next.steps[n] == s && next.revision == revision
  {
    var updated := SetStep(run, n, s).(revision := revision);
    StepMoved(run, n, s);
    assert Base(updated);
    FedIsNotBlocked(updated, n);
    AggregatedSteps(updated, n);
    AggregateIsTaken(updated);
    AggregateProgress(updated);
    OthersTaken(run, updated, Aggregated(updated), n);
  }
}
