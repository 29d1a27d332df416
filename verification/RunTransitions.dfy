/** Every transaction keeps the invariant of the run it touches (packages/run-control/service.ts). */
module RunTransitions {
  import opened Wrappers
  import opened PipelineModel
  import opened Cycles
  import opened Inspection
  import opened RunModel
  import opened RunInvariants

  /* ---------- the commit of an observation ---------- */

  /** The fields the invariant speaks about. */
  datatype Core = Core(state: StepState, attemptId: Option<Id>, generation: nat, retries: nat, inputs: Outputs, outputs: Outputs, change: bool)

  function CoreOf(s: RunStep): Core {
    Core(s.state, s.attemptId, s.generation, s.retries, s.inputs, s.outputs, s.change.Some?)
  }

  lemma NotedCore(s: RunStep, was: RunStep, changeFailed: bool, now: nat)
    ensures CoreOf(NotedStep(s, was, changeFailed, now)) == CoreOf(s)
  {
  }

  lemma FinishedCore(s: RunStep, o: Observation, declared: seq<Port>)
    requires o.Seen? && s.state == o.state
    ensures var t := CoreOf(FinishedStep(s, o, declared));
            && t == CoreOf(s).(state := t.state, outputs := t.outputs)
            && (t.state == s.state || t.state.Failed?)
  {
  }

  lemma AppliedCore(s: RunStep, o: Observation)
    requires o.Seen?
    ensures var t := CoreOf(AppliedStep(s, o)); t == CoreOf(s).(change := t.change)
  {
  }

  lemma TakenOverCore(s: RunStep, o: Observation, declared: seq<Port>)
    requires o.Seen? && Reportable(o)
    ensures var t := CoreOf(AppliedStep(FinishedStep(ReportedStep(s, o), o, declared), o));
            && t.generation == s.generation && t.inputs == s.inputs && t.attemptId == s.attemptId && t.retries == s.retries
            && !t.state.Pending? && !t.state.Dispatching?
  {
    var reported := ReportedStep(s, o);
    assert CoreOf(reported) == CoreOf(s).(state := o.state);
    FinishedCore(reported, o, declared);
    AppliedCore(FinishedStep(reported, o, declared), o);
  }

  lemma RetriedCore(s: RunStep, o: Observation, stopping: bool, now: nat)
    requires o.Seen?
    ensures var t := CoreOf(RetriedStep(s, o, stopping, now));
            if Retries(s, o, stopping)
            then t == CoreOf(s).(state := Pending, attemptId := None, change := false, retries := s.retries + 1) && s.retries < 2
            else t == CoreOf(s)
  {
  }

  lemma AdoptedCore(s: RunStep, o: Observation, declared: seq<Port>, stopping: bool, now: nat)
    requires o.Seen? && Reportable(o)
    ensures Judged(CoreOf(s), o, CoreOf(AdoptedStep(s, o, declared, stopping, now)))
  {
    TakenOverCore(s, o, declared);
    RetriedCore(AppliedStep(FinishedStep(ReportedStep(s, o), o, declared), o), o, stopping, now);
  }

  lemma SettledCore(s: RunStep, was: RunStep, o: Observation, now: nat)
    requires o.Seen?
    ensures CoreOf(SettledStep(s, was, o, now)) == CoreOf(s).(change := !TerminalStep(s) && s.change.Some?)
  {
  }

  /** How one observation moves the core of an unfinished step. */
  predicate Judged(s: Core, o: Observation, t: Core)
    requires o.Seen?
  {
    && t.generation == s.generation && t.inputs == s.inputs
    && (!t.state.Pending? ==> t.attemptId == s.attemptId && t.retries == s.retries && !t.state.Dispatching?)
    && (t.state.Pending? ==> t.attemptId.None? && !t.change && t.retries == s.retries + 1 <= 2)
  }

  lemma JudgedCore(s: RunStep, o: Observation, declared: seq<Port>, stopping: bool, now: nat)
    requires o.Seen? && Reportable(o)
    ensures Judged(CoreOf(s), o, CoreOf(JudgedStep(s, o, declared, stopping, now)))
  {
    AdoptedCore(s, o, declared, stopping, now);
  }

  lemma CoreDecides(s: RunStep, t: RunStep, o: Observation, c: Core)
    requires o.Seen? && StepOk(s) && !TerminalStep(s) && s.attemptId.Some?
    requires Judged(CoreOf(s), o, c)
    requires CoreOf(t) == c.(change := CoreOf(t).change) && (CoreOf(t).change ==> c.change)
    ensures StepOk(t) && StepProgress(s, t) && !t.state.Dispatching?
  {
  }

  lemma ObservedOk(s: RunStep, was: RunStep, o: Observation, changeFailed: bool, declared: seq<Port>, stopping: bool, now: nat)
    requires o.Seen? && Reportable(o) && StepOk(s) && !TerminalStep(s) && s.attemptId.Some?
    ensures var t := ObservedStep(s, was, o, changeFailed, declared, stopping, now);
            StepOk(t) && StepProgress(s, t) && !t.state.Dispatching?
  {
    var noted := NotedStep(s, was, changeFailed, now);
    NotedCore(s, was, changeFailed, now);
    JudgedCore(noted, o, declared, stopping, now);
    var judged := JudgedStep(noted, o, declared, stopping, now);
    SettledCore(judged, was, o, now);
    CoreDecides(s, SettledStep(judged, was, o, now), o, CoreOf(judged));
  }

  lemma SeenKeepsRun(world: World, run: Run, t: Ticket, o: Observation, changeFailed: bool, now: nat)
    requires RunOk(run) && o.Seen? && Reportable(o) && t.node in run.steps
    requires !TerminalStep(run.steps[t.node]) && run.steps[t.node].attemptId.Some?
    ensures RunOk(SeenRun(world, run, t, o, changeFailed, now))
    ensures Progress(run, SeenRun(world, run, t, o, changeFailed, now))
    ensures run.revision <= SeenRun(world, run, t, o, changeFailed, now).revision
  {
    var current := run.steps[t.node];
    var declared := DeclaredOutputs(world.catalog, run.graph, t.node);
    ObservedOk(current, t.step, o, changeFailed, declared, run.state.RunStopping?, now);
    var next := ObservedStep(current, t.step, o, changeFailed, declared, run.state.RunStopping?, now);
    UpdateThenAggregate(run, t.node, next, run.revision + (if Visible(current) != Visible(next) then 1 else 0));
  }

  lemma AbsentKeepsRun(run: Run, n: Id, now: nat)
    requires RunOk(run) && n in run.steps && !TerminalStep(run.steps[n]) && run.steps[n].attemptId.Some?
    ensures RunOk(AbsentRun(run, n, now)) && Progress(run, AbsentRun(run, n, now))
    ensures !AbsentRun(run, n, now).steps[n].state.Dispatching?
  {
    var step := run.steps[n];
    if run.state.RunStopping? {
      var stopped := step.(state := Stopped, message := Some(ConfirmedAbsent));
      UpdateThenAggregate(run, n, stopped, run.revision);
      assert SetStep(run, n, stopped).(revision := run.revision) == SetStep(run, n, stopped);
      PollingIsInvisible(Aggregated(SetStep(run, n, stopped)), n, now, run.revision + 1);
    } else {
      var unknown := PolledAgain(step.(state := Unknown, message := Some(RecordMissing)), now);
      UpdateUnfinished(run, n, unknown, RunAttention, AbsentRun(run, n, now).revision);
    }
  }

  /** Rescheduling a step changes nothing the invariant speaks about. */
  lemma PollingIsInvisible(run: Run, n: Id, now: nat, revision: nat)
    requires RunOk(run) && n in run.steps
    ensures var polled := SetStep(run, n, PolledAgain(run.steps[n], now)).(revision := revision);
            RunOk(polled) && forall a :: Progress(a, run) ==> Progress(a, polled)
  {
    var polled := SetStep(run, n, PolledAgain(run.steps[n], now)).(revision := revision);
    forall m ensures InputsOf(run.graph.edges, polled.steps, m) == InputsOf(run.graph.edges, run.steps, m) {
      SameOutputsSameInputs(run.graph.edges, run.steps, polled.steps, m);
    }
    forall m | m in run.steps ensures StepOk(polled.steps[m]) && Fed(run.graph.edges, polled.steps, m) {
      assert StepOk(run.steps[m]) && Fed(run.graph.edges, run.steps, m);
    }
    forall m | m in polled.steps && polled.steps[m].state.Pending? && !run.state.RunStopping?
      ensures Unobstructed(run.graph.edges, polled.steps, m)
    {
      assert Unobstructed(run.graph.edges, run.steps, m);
    }
    assert AllTerminal(run.steps) <==> AllTerminal(polled.steps) by {
      assert forall m :: m in run.steps ==> (TerminalStep(run.steps[m]) <==> TerminalStep(polled.steps[m]));
    }
    forall a | Progress(a, run) ensures Progress(a, polled) {
      forall m | m in a.steps ensures StepProgress(a.steps[m], polled.steps[m]) {
        assert StepProgress(a.steps[m], run.steps[m]);
      }
    }
  }

  lemma {:induction false} SameOutputsSameInputs(edges: seq<Edge>, a: Steps, b: Steps, n: Id)
    requires a.Keys == b.Keys && forall m :: m in a ==> a[m].outputs == b[m].outputs
    ensures InputsOf(edges, a, n) == InputsOf(edges, b, n)
  {
    if edges != [] {
      SameOutputsSameInputs(edges[..|edges| - 1], a, b, n);
    }
  }

  /* ---------- failure, rejection, stopping of pending work ---------- */

  lemma FailureKeepsRun(run: Run, n: Id, now: nat, revision: nat)
    requires RunOk(run) && n in run.steps && !TerminalStep(run.steps[n]) && run.steps[n].attemptId.Some?
    ensures var next := SetStep(run, n, FailedStep(run.steps[n], now)).(revision := revision);
            RunOk(next) && Progress(run, next)
  {
    UpdateUnfinished(run, n, FailedStep(run.steps[n], now), run.state, revision);
  }

  lemma StoppedStepKeepsRun(run: Run, n: Id, state: StepState, message: Option<Message>, revision: nat)
    requires RunOk(run) && n in run.steps && !TerminalStep(run.steps[n]) && state in {Stopped, Failed}
    ensures var updated := SetStep(run, n, run.steps[n].(state := state, message := message)).(revision := revision);
            RunOk(Aggregated(updated)) && Progress(run, Aggregated(updated)) && Aggregated(updated).revision == revision
  {
    UpdateThenAggregate(run, n, run.steps[n].(state := state, message := message), revision);
  }

  /* ---------- dispatch ---------- */

  /** What dispatching step `n` under attempt `a` does to a run. */
  ghost predicate DispatchOf(run: Run, next: Run, n: Id, a: Id) {
    && next.id == run.id && next.graph == run.graph && next.steps.Keys == run.steps.Keys && n in run.steps
    && !run.state.RunStopping? && next.state.RunRunning?
    && run.steps[n].state.Pending? && run.steps[n].attemptId.None?
    && next.steps[n].state.Dispatching? && next.steps[n].attemptId == Some(a)
    && next.steps[n].generation == run.steps[n].generation + 1 && next.steps[n].retries == run.steps[n].retries
    && (forall m :: m in run.steps && m != n ==> next.steps[m] == run.steps[m])
  }

  lemma DispatchKeepsRun(run: Run, n: Id, a: Id)
    requires RunOk(run) && n in run.steps && run.steps[n].state.Pending? && !run.state.RunStopping?
    requires Ready(run.graph.edges, run.steps, n)
    ensures RunOk(Dispatched(run, n, a)) && DispatchOf(run, Dispatched(run, n, a), n, a)
  {
    var next := Dispatched(run, n, a);
    assert StepOk(run.steps[n]);
    StepReplaced(run, n, next.steps[n]);
    assert !TerminalStep(next.steps[n]);
    forall m | m in next.steps && next.steps[m].state.Pending? ensures Unobstructed(run.graph.edges, next.steps, m) {
      assert Unobstructed(run.graph.edges, run.steps, m);
    }
  }

  /** Clearing a due retry time of a step that is not ready yet. */
  lemma WaitKeepsRun(run: Run, n: Id)
    requires RunOk(run) && n in run.steps && run.steps[n].state.Pending?
    ensures var next := SetStep(run, n, run.steps[n].(nextAttemptAt := None)); RunOk(next) && Progress(run, next)
  {
    assert !TerminalStep(run.steps[n]);
    var next := SetStep(run, n, run.steps[n].(nextAttemptAt := None));
    UpdateUnfinished(run, n, run.steps[n].(nextAttemptAt := None), run.state, run.revision);
    assert next.(state := run.state, revision := run.revision) == next;
  }

  /* ---------- user commands ---------- */

  lemma StopKeepsRun(run: Run)
    requires RunOk(run) && !TerminalRun(run.state)
    ensures RunOk(StopRequestedOn(run)) && Progress(run, StopRequestedOn(run))
  {
    var next := StopRequestedOn(run);
    forall n | n in run.steps ensures StepOk(next.steps[n]) && Fed(run.graph.edges, next.steps, n) {
      assert StepOk(run.steps[n]) && Fed(run.graph.edges, run.steps, n);
      SameOutputsSameInputs(run.graph.edges, run.steps, next.steps, n);
    }
    assert forall n :: n in run.steps ==> (TerminalStep(run.steps[n]) <==> TerminalStep(next.steps[n]));
  }

  /** What a resume does: unsuccessful steps become pending without an attempt; nothing else changes. */
  ghost predicate ResumeOf(run: Run, next: Run) {
    && next.id == run.id && next.graph == run.graph && next.steps.Keys == run.steps.Keys
    && AllTerminal(run.steps) && next.state.RunQueued?
    && forall n :: n in run.steps ==> Resumption(run.steps[n], next.steps[n])
  }

  predicate Resumption(s: RunStep, t: RunStep) {
    && StepOk(t)
    && t.generation == s.generation && t.inputs == s.inputs && t.outputs == s.outputs
    && (s.state.Succeeded? ==> t == s)
    && (!s.state.Succeeded? ==> t.state.Pending? && t.attemptId.None? && t.retries == 0)
  }

  lemma ResumedStepOk(s: RunStep)
    requires StepOk(s)
    ensures Resumption(s, ResumedStep(s))
  {
  }

  lemma ResumeKeepsRun(run: Run)
    requires RunOk(run) && AllTerminal(run.steps) && exists n :: n in run.steps && Unsuccessful(run.steps[n])
    ensures RunOk(ResumedRun(run)) && ResumeOf(run, ResumedRun(run))
  {
    var next := ResumedRun(run);
    forall n | n in run.steps ensures Resumption(run.steps[n], next.steps[n]) {
      ResumedStepOk(run.steps[n]);
    }
    ResumptionKeepsBase(run, next);
    var n :| n in run.steps && Unsuccessful(run.steps[n]);
    ResumptionIsOk(run, next, n);
  }

  lemma ResumptionIsOk(run: Run, next: Run, n: Id)
    requires Base(next) && next.state.RunQueued? && next.steps.Keys == run.steps.Keys
    requires forall m :: m in run.steps ==> Resumption(run.steps[m], next.steps[m])
    requires n in run.steps && Unsuccessful(run.steps[n])
    ensures RunOk(next)
  {
    assert Resumption(run.steps[n], next.steps[n]) && !TerminalStep(next.steps[n]);
    forall m | m in next.steps ensures !Unsuccessful(next.steps[m]) {
      assert Resumption(run.steps[m], next.steps[m]);
    }
  }

  lemma ResumptionKeepsBase(run: Run, next: Run)
    requires Base(run) && next.graph == run.graph && next.steps.Keys == run.steps.Keys
    requires forall n :: n in run.steps ==> Resumption(run.steps[n], next.steps[n])
    ensures Base(next)
  {
    forall n | n in run.steps ensures Fed(run.graph.edges, next.steps, n) {
      assert Fed(run.graph.edges, run.steps, n) && Resumption(run.steps[n], next.steps[n]);
      SameOutputsSameInputs(run.graph.edges, run.steps, next.steps, n);
    }
  }

  lemma OnlineKeepsRun(run: Run, n: Id, config: Config, changeId: Id)
    requires RunOk(run) && n in run.steps && run.steps[n].state.Running?
    ensures RunOk(OnlineRun(run, n, config, changeId)) && Progress(run, OnlineRun(run, n, config, changeId))
  {
    var s := run.steps[n].(change := Some(ConfigChange(changeId, config, ChangePending, None, None)), config := config);
    assert StepOk(run.steps[n]);
    assert !AllTerminal(run.steps) by { assert !TerminalStep(run.steps[n]); }
    UpdateUnfinished(run, n, s, run.state, run.revision + 1);
    assert SetStep(run, n, s).(state := run.state, revision := run.revision + 1) == OnlineRun(run, n, config, changeId);
  }

  /* ---------- new runs ---------- */

  predicate NeverDispatched(s: RunStep) {
    s.generation == 0 && s.retries == 0 && s.attemptId.None? && s.change.None? && (s.state.Pending? || s.state.Succeeded?)
  }

  /** A run that has not been dispatched anywhere. */
  ghost predicate Unstarted(run: Run) {
    && RunOk(run) && !run.state.RunStopping? && !run.state.RunStopped?
    && forall n :: n in run.steps ==> NeverDispatched(run.steps[n])
  }

  /** An executable graph is acyclic and its edges join steps. */
  lemma ExecutableGraphOk(world: World, g: Graph, capabilities: map<Id, Capabilities>)
    requires Executable(world.catalog, g)
    ensures UniqueIds(g.nodes) && OneSourcePerInput(g.edges) && GraphOk(g, NewSteps(world, g, capabilities))
  {
    forall e | e in g.edges ensures e.from.node in NodeIds(g.nodes) && e.to.node in NodeIds(g.nodes) {
      assert Wired(world.catalog, g.nodes, e);
    }
  }

  lemma NewRunIsUnstarted(world: World, id: Id, workspace: Id, graphRevision: nat, g: Graph, actor: Id, capabilities: map<Id, Capabilities>)
    requires UniqueIds(g.nodes) && GraphOk(g, NewSteps(world, g, capabilities))
    ensures Unstarted(NewRun(world, id, workspace, graphRevision, g, actor, capabilities))
  {
    var run := NewRun(world, id, workspace, graphRevision, g, actor, capabilities);
    AllReferences(world, g, capabilities);
    FreshIsUnstarted(world, run, g, capabilities);
  }

  lemma FreshIsUnstarted(world: World, run: Run, g: Graph, capabilities: map<Id, Capabilities>)
    requires GraphOk(run.graph, run.steps) && run.steps == NewSteps(world, g, capabilities)
    requires run.state.RunSucceeded? || run.state.RunQueued?
    requires TerminalRun(run.state) <==> AllTerminal(run.steps)
    ensures Unstarted(run)
  {
    NewStepsAreFresh(world, g, capabilities);
    UnstartedIsOk(run);
  }

  lemma NewStepsAreFresh(world: World, g: Graph, capabilities: map<Id, Capabilities>)
    ensures forall n :: n in NewSteps(world, g, capabilities) ==> NeverDispatched(NewSteps(world, g, capabilities)[n])
  {
  }

  lemma UnstartedIsOk(run: Run)
    requires GraphOk(run.graph, run.steps) && (run.state.RunSucceeded? || run.state.RunQueued?)
    requires forall n :: n in run.steps ==> NeverDispatched(run.steps[n])
    requires TerminalRun(run.state) <==> AllTerminal(run.steps)
    ensures Unstarted(run)
  {
    if AllTerminal(run.steps) {
      forall n | n in run.steps ensures run.steps[n].state.Succeeded? {
        assert NeverDispatched(run.steps[n]) && TerminalStep(run.steps[n]);
      }
    }
  }

  lemma AllReferences(world: World, g: Graph, capabilities: map<Id, Capabilities>)
    requires UniqueIds(g.nodes)
    ensures (forall n :: n in g.nodes ==> Reference(world.catalog, n)) <==> AllTerminal(NewSteps(world, g, capabilities))
  {
    forall n | n in g.nodes ensures Reference(world.catalog, n) <==> TerminalStep(NewSteps(world, g, capabilities)[n.id]) {
      var i :| 0 <= i < |g.nodes| && g.nodes[i] == n;
      FindFirst(g.nodes, i);
      assert n.id in NodeIds(g.nodes);
    }
  }

  /* ---------- branches ---------- */

  lemma {:induction false} SameIdsFind(a: seq<Node>, b: seq<Node>, id: Id)
    requires |a| == |b| && forall i :: 0 <= i < |a| ==> a[i].id == b[i].id
    ensures FindNode(a, id).Some? <==> FindNode(b, id).Some?
    ensures FindNode(a, id).Some? ==> exists i :: 0 <= i < |a| && FindNode(a, id).value == a[i] && FindNode(b, id).value == b[i]
  {
    if a != [] {
      if a[0].id == id {
        assert FindNode(a, id).value == a[0] && FindNode(b, id).value == b[0];
      } else {
        SameIdsFind(a[1..], b[1..], id);
        if FindNode(a, id).Some? {
          var i :| 0 <= i < |a[1..]| && FindNode(a[1..], id).value == a[1..][i] && FindNode(b[1..], id).value == b[1..][i];
          assert a[1..][i] == a[i + 1] && b[1..][i] == b[i + 1];
        }
      }
    }
  }

  lemma BranchGraphKeepsIds(run: Run, n: Id, config: Config)
    ensures NodeIds(BranchGraph(run, n, config).nodes) == NodeIds(run.graph.nodes)
    ensures UniqueIds(run.graph.nodes) ==> UniqueIds(BranchGraph(run, n, config).nodes)
  {
    var nodes := BranchGraph(run, n, config).nodes;
    assert |nodes| == |run.graph.nodes|;
    forall i | 0 <= i < |nodes| ensures nodes[i].id == run.graph.nodes[i].id {
    }
    forall id ensures id in NodeIds(nodes) <==> id in NodeIds(run.graph.nodes) {
      SameIdsFind(nodes, run.graph.nodes, id);
    }
  }

  lemma BranchGraphOk(world: World, run: Run, n: Id, config: Config, capabilities: map<Id, Capabilities>)
    requires GraphOk(run.graph, run.steps) && run.steps.Keys == NodeIds(run.graph.nodes)
    ensures GraphOk(BranchGraph(run, n, config), NewSteps(world, BranchGraph(run, n, config), capabilities))
    ensures NewSteps(world, BranchGraph(run, n, config), capabilities).Keys == run.steps.Keys
  {
    BranchGraphKeepsIds(run, n, config);
  }

  lemma BranchStepIsFresh(run: Run, p: Preview, n: Id, blank: RunStep)
    requires NeverDispatched(blank)
    ensures NeverDispatched(BranchStep(run, p, n, blank))
    ensures n !in p.reusable ==> BranchStep(run, p, n, blank).state == blank.state
  {
  }

  /** A branch starts unstarted: reused steps are succeeded, the edited one is pending. */
  lemma BranchIsUnstarted(world: World, run: Run, p: Preview, id: Id, actor: Id)
    requires GraphOk(run.graph, run.steps) && run.steps.Keys == NodeIds(run.graph.nodes) && UniqueIds(run.graph.nodes)
    requires Previewed(world, run, p.revision, p.node, p.config) == Success(p) && (p.mode.Branch? || p.mode.CheckpointBranch?)
    ensures Unstarted(BranchRun(world, run, p, id, actor))
    ensures BranchRun(world, run, p, id, actor).steps.Keys == run.steps.Keys
  {
    var g := BranchGraph(run, p.node, p.config);
    var capabilities := StepCapabilities(run);
    BranchGraphKeepsIds(run, p.node, p.config);
    BranchGraphOk(world, run, p.node, p.config, capabilities);
    EditedNodeRuns(world, run, p, capabilities);
    BranchOfBlank(world, run, p, id, actor, g, capabilities);
  }

  /** The steps of `branch` are those of the blank run, with reused results filled in. */
  ghost predicate Filled(run: Run, p: Preview, blank: Steps, branch: Steps) {
    branch.Keys == blank.Keys && forall n :: n in blank ==> branch[n] == BranchStep(run, p, n, blank[n])
  }

  lemma BranchOfBlank(world: World, run: Run, p: Preview, id: Id, actor: Id, g: Graph, capabilities: map<Id, Capabilities>)
    requires g == BranchGraph(run, p.node, p.config) && capabilities == StepCapabilities(run)
    requires GraphOk(g, NewSteps(world, g, capabilities)) && NewSteps(world, g, capabilities).Keys == run.steps.Keys
    requires p.node in run.steps && p.node !in p.reusable
    requires NewSteps(world, g, capabilities)[p.node].state.Pending?
    requires exists n :: n in g.nodes && !Reference(world.catalog, n)
    ensures Unstarted(BranchRun(world, run, p, id, actor))
    ensures BranchRun(world, run, p, id, actor).steps.Keys == run.steps.Keys
  {
    BranchIsFilled(world, run, p, id, actor);
    BranchIsQueued(world, run, p, id, actor);
    NewStepsAreFresh(world, g, capabilities);
    BranchStepsAreFresh(run, p, NewSteps(world, g, capabilities), BranchRun(world, run, p, id, actor));
  }

  lemma BranchStepsAreFilled(run: Run, p: Preview, blank: Steps)
    ensures Filled(run, p, blank, BranchSteps(run, p, blank))
  {
  }

  lemma BranchIsFilled(world: World, run: Run, p: Preview, id: Id, actor: Id)
    ensures Filled(run, p, NewSteps(world, BranchGraph(run, p.node, p.config), StepCapabilities(run)), BranchRun(world, run, p, id, actor).steps)
  {
    BranchStepsAreFilled(run, p, NewSteps(world, BranchGraph(run, p.node, p.config), StepCapabilities(run)));
  }

  lemma BranchIsQueued(world: World, run: Run, p: Preview, id: Id, actor: Id)
    requires exists n :: n in BranchGraph(run, p.node, p.config).nodes && !Reference(world.catalog, n)
    ensures var branch := BranchRun(world, run, p, id, actor);
            branch.graph == BranchGraph(run, p.node, p.config) && branch.state.RunQueued?
  {
    var blank := NewRun(world, id, run.workspace, run.graphRevision, BranchGraph(run, p.node, p.config), actor, StepCapabilities(run));
    assert blank.state.RunQueued?;
  }

  lemma BranchStepsAreFresh(run: Run, p: Preview, blank: Steps, branch: Run)
    requires Filled(run, p, blank, branch.steps)
    requires forall n :: n in blank ==> NeverDispatched(blank[n])
    requires GraphOk(branch.graph, blank) && branch.state.RunQueued?
    requires p.node in blank && blank[p.node].state.Pending? && p.node !in p.reusable
    ensures Unstarted(branch)
  {
    forall n | n in branch.steps ensures NeverDispatched(branch.steps[n]) {
      BranchStepIsFresh(run, p, n, blank[n]);
    }
    BranchStepIsFresh(run, p, p.node, blank[p.node]);
    assert !TerminalStep(branch.steps[p.node]);
    UnstartedIsOk(branch);
  }

  /** The edited node is not a reference and not reusable, so it is pending in the branch. */
  lemma EditedNodeRuns(world: World, run: Run, p: Preview, capabilities: map<Id, Capabilities>)
    requires run.steps.Keys == NodeIds(run.graph.nodes)
    requires Previewed(world, run, p.revision, p.node, p.config) == Success(p) && (p.mode.Branch? || p.mode.CheckpointBranch?)
    ensures p.node in run.steps && p.node !in p.reusable
    ensures var g := BranchGraph(run, p.node, p.config);
            && p.node in NewSteps(world, g, capabilities)
            && NewSteps(world, g, capabilities)[p.node].state.Pending?
            && (exists n :: n in g.nodes && !Reference(world.catalog, n))
  {
    PreviewedNode(world, run, p);
    EditedNodeIsPending(world, run, p, capabilities);
  }

  lemma PreviewedNode(world: World, run: Run, p: Preview)
    requires Previewed(world, run, p.revision, p.node, p.config) == Success(p) && !p.mode.Refused?
    ensures p.node in run.steps && FindNode(run.graph.nodes, p.node).Some?
    ensures !Reference(world.catalog, FindNode(run.graph.nodes, p.node).value)
    ensures p.affected == Downstream(run.graph.edges, p.node) && p.reusable == ReusableSteps(run, p.affected)
  {
  }

  lemma SameKind(catalog: Catalog, m: Node, n: Node)
    requires m.kind == n.kind
    ensures Reference(catalog, m) == Reference(catalog, n)
  {
  }

  lemma EditedNodeIsPending(world: World, run: Run, p: Preview, capabilities: map<Id, Capabilities>)
    requires FindNode(run.graph.nodes, p.node).Some? && !Reference(world.catalog, FindNode(run.graph.nodes, p.node).value)
    ensures var g := BranchGraph(run, p.node, p.config);
            && p.node in NewSteps(world, g, capabilities)
            && NewSteps(world, g, capabilities)[p.node].state.Pending?
            && (exists n :: n in g.nodes && !Reference(world.catalog, n))
  {
    var g := BranchGraph(run, p.node, p.config);
    SameIdsFind(g.nodes, run.graph.nodes, p.node);
    var i :| 0 <= i < |g.nodes| && FindNode(g.nodes, p.node).value == g.nodes[i] && FindNode(run.graph.nodes, p.node).value == run.graph.nodes[i];
    SameKind(world.catalog, g.nodes[i], run.graph.nodes[i]);
    assert g.nodes[i] in g.nodes;
  }

  /** An accepted branching change adds the branch and nothing else. */
  lemma BranchAdded(world: World, db: Database, p: Preview, changeId: Id, branchId: Id, actor: Id)
    requires p.run in db.runs && branchId !in db.runs
    requires branchId in ChangedIn(world, db, p.run, p, changeId, branchId, actor).runs
    ensures Previewed(world, db.runs[p.run], p.revision, p.node, p.config) == Success(p)
    ensures p.mode.Branch? || p.mode.CheckpointBranch?
    ensures ChangedIn(world, db, p.run, p, changeId, branchId, actor).runs
            == db.runs[branchId := BranchRun(world, db.runs[p.run], p, branchId, actor)]
  {
  }

  /** In a branch, every step that starts succeeded and is not a reference is untouched by the edit:
      nothing leads from the edited node to it, and it succeeded in the parent run, which stays as it was. */
  lemma BranchReusesOnlyUnaffected(world: World, db: Database, p: Preview, changeId: Id, branchId: Id, actor: Id, n: Id)
    requires p.run in db.runs && branchId !in db.runs
    requires branchId in ChangedIn(world, db, p.run, p, changeId, branchId, actor).runs
    requires n in ChangedIn(world, db, p.run, p, changeId, branchId, actor).runs[branchId].steps
    ensures ChangedIn(world, db, p.run, p, changeId, branchId, actor).runs[p.run] == db.runs[p.run]
    ensures var branch := ChangedIn(world, db, p.run, p, changeId, branchId, actor).runs[branchId];
            && FindNode(branch.graph.nodes, n).Some?
            && (branch.steps[n].state.Succeeded? && !Reference(world.catalog, FindNode(branch.graph.nodes, n).value) ==>
                  && !Reaches(db.runs[p.run].graph.edges, p.node, n)
                  && n in db.runs[p.run].steps && db.runs[p.run].steps[n].state.Succeeded?)
  {
    var run := db.runs[p.run];
    BranchAdded(world, db, p, changeId, branchId, actor);
    PreviewedNode(world, run, p);
    SucceededMeansReused(world, run, p, branchId, actor, n);
    ReusedIsUnaffected(run, p.node, n);
  }

  lemma SucceededMeansReused(world: World, run: Run, p: Preview, id: Id, actor: Id, n: Id)
    requires n in BranchRun(world, run, p, id, actor).steps
    ensures var branch := BranchRun(world, run, p, id, actor);
            && FindNode(branch.graph.nodes, n).Some?
            && (branch.steps[n].state.Succeeded? && !Reference(world.catalog, FindNode(branch.graph.nodes, n).value) ==> n in p.reusable)
  {
  }

  lemma ReusedIsUnaffected(run: Run, edited: Id, n: Id)
    ensures n in ReusableSteps(run, Downstream(run.graph.edges, edited)) ==>
              n in run.steps && run.steps[n].state.Succeeded? && !Reaches(run.graph.edges, edited, n)
  {
    if n in ReusableSteps(run, Downstream(run.graph.edges, edited)) && Reaches(run.graph.edges, edited, n) {
      DownstreamIsReachable(run.graph.edges, edited, n);
      assert false;
    }
  }

  /** `Downstream` is exactly the set of nodes reachable from the edited one. */
  lemma DownstreamIsReachable(edges: seq<Edge>, n: Id, m: Id)
    ensures m in Downstream(edges, n) <==> Reaches(edges, n, m)
  {
    if m == n {
      ReachesItself(edges, n);
    } else if Reaches(edges, n, m) {
      var walk :| IsWalk(edges, walk) && walk[0] == n && walk[|walk| - 1] == m;
      assert Linked(edges, walk[|walk| - 2], walk[|walk| - 2 + 1]);
      var e :| e in edges && e.from.node == walk[|walk| - 2] && e.to.node == m;
    }
  }
}
