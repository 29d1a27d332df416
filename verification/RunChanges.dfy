/** What changing, resuming, stopping and starting a run does, exactly (packages/run-control/service.ts). */
module RunChanges {
  import opened Wrappers
  import opened PipelineModel
  import opened Cycles
  import opened RunModel
  import opened RunTransitions

  /* ---------- what a preview says ---------- */

  function Setting(config: Config, k: Id): Option<Value> {
    if k in config then Some(config[k]) else None
  }

  /** Every field the new configuration changes is one that the step's executor can change in place. */
  ghost predicate Mutable(s: RunStep, config: Config) {
    s.capabilities.Some? && forall k :: Setting(s.config, k) != Setting(config, k) ==> k in s.capabilities.value.mutableFields
  }

  /** The step runs, and nothing that depends on it has been started. */
  ghost predicate ChangesInPlace(run: Run, n: Id, config: Config)
    requires n in run.steps
  {
    && run.steps[n].state.Running? && Mutable(run.steps[n], config)
    && forall m :: m in run.steps && m != n && Reaches(run.graph.edges, n, m) ==> run.steps[m].state.Pending?
  }

  ghost predicate ResumesFromCheckpoint(run: Run, n: Id, config: Config)
    requires n in run.steps
  {
    && run.steps[n].checkpoint.Some? && run.steps[n].capabilities.Some? && run.steps[n].capabilities.value.checkpoint
    && Mutable(run.steps[n], config)
  }

  /** A reference, a change of nothing, a second change before the first is settled, or a run being stopped. */
  ghost predicate Unchangeable(world: World, run: Run, n: Id, config: Config)
    requires n in run.steps && FindNode(run.graph.nodes, n).Some?
  {
    || Reference(world.catalog, FindNode(run.graph.nodes, n).value)
    || (forall k :: Setting(run.steps[n].config, k) == Setting(config, k))
    || run.steps[n].change.Some? || run.state.RunStopping?
  }

  /** A step whose result a branch may take over: it succeeded with the configuration it still has, and the edited node does
      not lead to it. */
  ghost predicate MayReuse(run: Run, n: Id, m: Id) {
    && m in run.steps && run.steps[m].state.Succeeded? && !Reaches(run.graph.edges, n, m)
    && run.steps[m].actualConfig == run.steps[m].config && run.steps[m].change.None?
  }

  ghost predicate PreviewIs(world: World, run: Run, p: Preview) {
    && p.run == run.id && p.revision == run.revision && p.node in run.steps
    && FindNode(run.graph.nodes, p.node).Some?
    && Lookup(world.catalog, FindNode(run.graph.nodes, p.node).value.kind).Some?
    && Lookup(world.catalog, FindNode(run.graph.nodes, p.node).value.kind).value.accepts(p.config)
    && (forall m :: m in p.affected <==> Reaches(run.graph.edges, p.node, m))
    && (p.mode.Refused? <==> Unchangeable(world, run, p.node, p.config))
    && (p.mode.Online? <==> !p.mode.Refused? && ChangesInPlace(run, p.node, p.config))
    && (p.mode.CheckpointBranch? <==> !p.mode.Refused? && !p.mode.Online? && ResumesFromCheckpoint(run, p.node, p.config))
    && (forall m :: m in p.reusable <==> MayReuse(run, p.node, m) && !Reference(world.catalog, FindNode(run.graph.nodes, p.node).value))
  }

  lemma FieldsMean(a: Config, b: Config, k: Id)
    ensures k in ChangedFields(a, b) <==> Setting(a, k) != Setting(b, k)
  {
  }

  lemma NoFieldsMean(a: Config, b: Config)
    ensures ChangedFields(a, b) == {} <==> forall k :: Setting(a, k) == Setting(b, k)
  {
    forall k {
      FieldsMean(a, b, k);
    }
    if forall k :: Setting(a, k) == Setting(b, k) {
      forall k ensures k !in ChangedFields(a, b) {
        assert Setting(a, k) == Setting(b, k);
      }
    }
    if ChangedFields(a, b) == {} {
      forall k ensures Setting(a, k) == Setting(b, k) {
        FieldsMean(a, b, k);
      }
    }
  }

  lemma MutableMeans(s: RunStep, config: Config)
    ensures Mutable(s, config) <==> s.capabilities.Some? && ChangedFields(s.config, config) <= s.capabilities.value.mutableFields
  {
    forall k ensures k in ChangedFields(s.config, config) <==> Setting(s.config, k) != Setting(config, k) {
      FieldsMean(s.config, config, k);
    }
  }

  lemma ModeMeans(run: Run, n: Id, config: Config, affected: set<Id>)
    requires n in run.steps && forall m :: m in affected <==> Reaches(run.graph.edges, n, m)
    ensures var mode := ModeOf(run, n, config, affected);
            && (mode.Refused? <==> (forall k :: Setting(run.steps[n].config, k) == Setting(config, k)) || run.steps[n].change.Some? || run.state.RunStopping?)
            && (mode.Online? <==> !mode.Refused? && ChangesInPlace(run, n, config))
            && (mode.CheckpointBranch? <==> !mode.Refused? && !mode.Online? && ResumesFromCheckpoint(run, n, config))
  {
    NoFieldsMean(run.steps[n].config, config);
    MutableMeans(run.steps[n], config);
  }

  lemma ReusableMeans(run: Run, n: Id, affected: set<Id>)
    requires forall m :: m in affected <==> Reaches(run.graph.edges, n, m)
    ensures forall m :: m in ReusableSteps(run, affected) <==> MayReuse(run, n, m)
  {
  }

  /** A preview succeeds exactly with what it should say. */
  lemma PreviewsExactly(world: World, run: Run, p: Preview)
    ensures Previewed(world, run, p.revision, p.node, p.config) == Success(p) <==> PreviewIs(world, run, p)
  {
    var affected := Downstream(run.graph.edges, p.node);
    forall m ensures m in affected <==> Reaches(run.graph.edges, p.node, m) {
      DownstreamIsReachable(run.graph.edges, p.node, m);
    }
    if Previewed(world, run, p.revision, p.node, p.config) == Success(p) {
      PreviewedIs(world, run, p);
    }
    if PreviewIs(world, run, p) {
      assert p.affected == affected;
      SamePreview(world, run, p, affected);
    }
  }

  lemma PreviewedIs(world: World, run: Run, p: Preview)
    requires Previewed(world, run, p.revision, p.node, p.config) == Success(p)
    requires forall m :: m in Downstream(run.graph.edges, p.node) <==> Reaches(run.graph.edges, p.node, m)
    ensures PreviewIs(world, run, p)
  {
    ModeMeans(run, p.node, p.config, Downstream(run.graph.edges, p.node));
    ReusableMeans(run, p.node, Downstream(run.graph.edges, p.node));
  }

  lemma SamePreview(world: World, run: Run, p: Preview, affected: set<Id>)
    requires PreviewIs(world, run, p) && p.affected == affected
    requires forall m :: m in affected <==> Reaches(run.graph.edges, p.node, m)
    ensures p.reusable == if Reference(world.catalog, FindNode(run.graph.nodes, p.node).value) then {} else ReusableSteps(run, affected)
    ensures p.mode == if Reference(world.catalog, FindNode(run.graph.nodes, p.node).value) then Refused else ModeOf(run, p.node, p.config, affected)
  {
    ModeMeans(run, p.node, p.config, affected);
    ReusableMeans(run, p.node, affected);
  }

  /* ---------- what an accepted change does ---------- */

  /** The step asks for the new configuration, and has it as its own from now on; nothing else changes. */
  predicate ChangedOnline(run: Run, n: Id, config: Config, changeId: Id, next: Run)
    requires n in run.steps
  {
    && n in next.steps && next == run.(steps := next.steps, revision := run.revision + 1) && next.steps == run.steps[n := next.steps[n]]
    && next.steps[n] == run.steps[n].(config := config, change := next.steps[n].change)
    && next.steps[n].change.Some? && next.steps[n].change.value.id == changeId && next.steps[n].change.value.config == config
    && next.steps[n].change.value.state.ChangePending?
  }

  /** The configuration a node has in a branch: the edited one, or the last one its step accepted. */
  function BranchConfig(run: Run, n: Id, config: Config, node: Node): Config {
    if node.id == n then config else if node.id in run.steps then run.steps[node.id].config else node.config
  }

  /** The same graph with those configurations. */
  ghost predicate BranchedGraph(run: Run, n: Id, config: Config, g: Graph) {
    && g == run.graph.(nodes := g.nodes) && |g.nodes| == |run.graph.nodes|
    && forall i :: 0 <= i < |g.nodes| ==> g.nodes[i] == run.graph.nodes[i].(config := BranchConfig(run, n, config, run.graph.nodes[i]))
  }

  /** A step of a branch: a reused result, a reference, or a fresh start, for the edited one from its checkpoint if that is
      the mode. */
  ghost predicate BranchedStep(world: World, run: Run, p: Preview, node: Node, t: RunStep) {
    && t.config == node.config && t.attemptId.None? && t.generation == 0 && t.retries == 0 && t.change.None? && t.inputs == map[]
    && (if node.id in p.reusable && node.id in run.steps then
          t.state.Succeeded? && t.outputs == run.steps[node.id].outputs && t.actualConfig == run.steps[node.id].actualConfig
        else if Reference(world.catalog, node) then t.state.Succeeded? && t.outputs == world.referenceOutputs(node)
        else t.state.Pending? && t.outputs == map[] && t.actualConfig == node.config)
    && t.checkpoint == (if node.id == p.node && p.mode.CheckpointBranch? && node.id in run.steps then run.steps[node.id].checkpoint else None)
    && t.capabilities == (if node.id in run.steps then run.steps[node.id].capabilities else None)
  }

  ghost predicate BranchIs(world: World, run: Run, p: Preview, id: Id, actor: Id, branch: Run) {
    && branch.id == id && branch.parent == Some(run.id) && branch.createdBy == actor && branch.workspace == run.workspace
    && BranchedGraph(run, p.node, p.config, branch.graph)
    && branch.steps.Keys == NodeIds(branch.graph.nodes)
    && forall m :: m in branch.steps ==> BranchedStep(world, run, p, FindNode(branch.graph.nodes, m).value, branch.steps[m])
  }

  lemma BranchGraphIs(run: Run, n: Id, config: Config)
    ensures BranchedGraph(run, n, config, BranchGraph(run, n, config))
  {
  }

  lemma BranchStepIs(world: World, run: Run, p: Preview, node: Node)
    ensures BranchedStep(world, run, p, node, BranchStep(run, p, node.id, NewStep(world, node, StepCapabilities(run))))
  {
  }

  lemma BranchSteppings(world: World, run: Run, p: Preview, id: Id, actor: Id)
    ensures var branch, g := BranchRun(world, run, p, id, actor), BranchGraph(run, p.node, p.config);
            && branch.graph == g && branch.steps.Keys == NodeIds(g.nodes)
            && branch.steps == BranchSteps(run, p, NewSteps(world, g, StepCapabilities(run)))
            && branch.id == id && branch.parent == Some(run.id) && branch.createdBy == actor && branch.workspace == run.workspace
  {
  }

  lemma BranchStepOf(world: World, run: Run, p: Preview, g: Graph, m: Id)
    requires m in NodeIds(g.nodes)
    ensures m in BranchSteps(run, p, NewSteps(world, g, StepCapabilities(run)))
    ensures BranchedStep(world, run, p, FindNode(g.nodes, m).value, BranchSteps(run, p, NewSteps(world, g, StepCapabilities(run)))[m])
  {
    BranchStepIs(world, run, p, FindNode(g.nodes, m).value);
  }

  lemma BranchRunIs(world: World, run: Run, p: Preview, id: Id, actor: Id)
    ensures BranchIs(world, run, p, id, actor, BranchRun(world, run, p, id, actor))
  {
    var g := BranchGraph(run, p.node, p.config);
    BranchSteppings(world, run, p, id, actor);
    BranchGraphIs(run, p.node, p.config);
    forall m | m in NodeIds(g.nodes)
      ensures BranchedStep(world, run, p, FindNode(g.nodes, m).value, BranchSteps(run, p, NewSteps(world, g, StepCapabilities(run)))[m])
    {
      BranchStepOf(world, run, p, g, m);
    }
  }

  /** A change is accepted exactly when it is what a preview of the run as it is now says and that is no refusal; then it is
      carried out in the preview's mode, and nothing else is touched. */
  lemma ChangesExactly(world: World, db: Database, p: Preview, changeId: Id, branchId: Id, actor: Id)
    requires p.run in db.runs && db.runs[p.run].id == p.run && branchId !in db.runs
    ensures var run, next := db.runs[p.run], ChangedIn(world, db, p.run, p, changeId, branchId, actor).runs;
            if !PreviewIs(world, run, p) || p.mode.Refused? then next == db.runs
            else if p.mode.Online? then
              p.run in next && next == db.runs[p.run := next[p.run]] && ChangedOnline(run, p.node, p.config, changeId, next[p.run])
            else branchId in next && next == db.runs[branchId := next[branchId]] && BranchIs(world, run, p, branchId, actor, next[branchId])
  {
    var run := db.runs[p.run];
    PreviewsExactly(world, run, p);
    if PreviewIs(world, run, p) && !p.mode.Refused? {
      if p.mode.Online? {
        OnlineIs(world, db, p, changeId, branchId, actor);
      } else {
        BranchRunIs(world, run, p, branchId, actor);
      }
    }
  }

  lemma OnlineIs(world: World, db: Database, p: Preview, changeId: Id, branchId: Id, actor: Id)
    requires p.run in db.runs && PreviewIs(world, db.runs[p.run], p) && p.mode.Online?
    requires Previewed(world, db.runs[p.run], p.revision, p.node, p.config) == Success(p)
    ensures var run, next := db.runs[p.run], ChangedIn(world, db, p.run, p, changeId, branchId, actor).runs;
            p.run in next && next == db.runs[p.run := next[p.run]] && ChangedOnline(run, p.node, p.config, changeId, next[p.run])
  {
    var run := db.runs[p.run];
    assert !Unchangeable(world, run, p.node, p.config);
    OnlineRunIs(run, p.node, p.config, changeId);
  }

  lemma OnlineRunIs(run: Run, n: Id, config: Config, changeId: Id)
    requires n in run.steps
    ensures ChangedOnline(run, n, config, changeId, OnlineRun(run, n, config, changeId))
  {
  }

  /* ---------- starting, stopping, resuming ---------- */

  /** An unfinished run of the same actor for the same revision and plan. */
  predicate SamePlan(world: World, run: Run, workspace: Id, actor: Id, pipeline: Id, graphRevision: nat, fingerprint: Id) {
    && !(run.state.RunSucceeded? || run.state.RunFailed? || run.state.RunStopped?)
    && run.workspace == workspace && run.createdBy == actor && run.graph.id == pipeline && run.graphRevision == graphRevision
    && (run.fingerprint == Some(fingerprint) || (run.fingerprint.None? && world.planOf(run) == fingerprint))
  }

  /** A step before anything ran: a reference has its outputs, anything else waits. */
  ghost predicate FreshStep(world: World, node: Node, capabilities: map<Id, Capabilities>, t: RunStep) {
    && t.config == node.config && t.actualConfig == node.config && t.attemptId.None? && t.generation == 0 && t.retries == 0
    && t.change.None? && t.checkpoint.None? && t.inputs == map[]
    && t.capabilities == (if node.id in capabilities then Some(capabilities[node.id]) else None)
    && (if Reference(world.catalog, node) then t.state.Succeeded? && t.outputs == world.referenceOutputs(node)
        else t.state.Pending? && t.outputs == map[])
  }

  /** A start stores one fresh run of the graph, unless the same plan is still being run. */
  lemma StartsExactly(world: World, db: Database, id: Id, workspace: Id, graphRevision: nat, g: Graph, actor: Id,
                      capabilities: map<Id, Capabilities>, fingerprint: Id)
    requires id !in db.runs
    ensures var next := Started(world, db, id, workspace, graphRevision, g, actor, capabilities, fingerprint).runs;
            if exists k :: k in db.runs && SamePlan(world, db.runs[k], workspace, actor, g.id, graphRevision, fingerprint) then next == db.runs
            else
              && id in next && next == db.runs[id := next[id]]
              && next[id].graph == g && next[id].workspace == workspace && next[id].createdBy == actor && next[id].parent.None?
              && next[id].graphRevision == graphRevision && next[id].fingerprint == Some(fingerprint)
              && next[id].steps.Keys == NodeIds(g.nodes)
              && forall m :: m in next[id].steps ==> FreshStep(world, FindNode(g.nodes, m).value, capabilities, next[id].steps[m])
  {
    forall k | k in db.runs
      ensures DuplicateOf(world, db.runs[k], workspace, actor, g.id, graphRevision, fingerprint)
              <==> SamePlan(world, db.runs[k], workspace, actor, g.id, graphRevision, fingerprint)
    {
    }
  }

  /** An unsuccessful step starts over, from its checkpoint if its executor can; a succeeded one stays. */
  predicate ResumedTo(s: RunStep, t: RunStep) {
    if s.state.Succeeded? then t == s
    else
      && t.state.Pending? && t.attemptId.None? && t.taskId.None? && t.change.None? && t.retries == 0 && t.eventCursor == 0
      && t.nextAttemptAt.None? && t.nextPollAt.None? && t.pollFailures.None?
      && t.config == s.config && t.actualConfig == s.actualConfig && t.capabilities == s.capabilities
      && t.generation == s.generation && t.outputs == s.outputs
      && t.checkpoint == if s.capabilities.Some? && s.capabilities.value.checkpoint then s.checkpoint else None
  }

  /** A resume is accepted exactly at the current revision of a run whose steps have all ended, one of them unsuccessfully. */
  lemma ResumesExactly(db: Database, id: Id, expectedRevision: nat)
    requires id in db.runs
    ensures var run, next := db.runs[id], ResumedIn(db, id, expectedRevision).runs;
            if run.revision == expectedRevision && (forall n :: n in run.steps ==> TerminalStep(run.steps[n]))
               && (exists n :: n in run.steps && !run.steps[n].state.Succeeded?)
            then
              && id in next && next == db.runs[id := next[id]] && next[id].state.RunQueued? && next[id].revision == run.revision + 1
              && next[id].graph == run.graph && next[id].steps.Keys == run.steps.Keys
              && forall n :: n in run.steps ==> ResumedTo(run.steps[n], next[id].steps[n])
            else next == db.runs
  {
    var run := db.runs[id];
    assert MayResume(db, id, expectedRevision) <==>
           run.revision == expectedRevision && AllTerminal(run.steps) && exists n :: n in run.steps && Unsuccessful(run.steps[n]);
    if AllTerminal(run.steps) {
      assert forall n :: n in run.steps ==> (Unsuccessful(run.steps[n]) <==> !run.steps[n].state.Succeeded?);
    }
  }

  /** A stop is accepted exactly at the current revision of an unfinished run; all its steps are due at once then. */
  lemma StopsExactly(db: Database, id: Id, expectedRevision: nat)
    requires id in db.runs
    ensures var run, next := db.runs[id], StopRequestedIn(db, id, expectedRevision).runs;
            if run.revision == expectedRevision && !(run.state.RunSucceeded? || run.state.RunFailed? || run.state.RunStopped?) then
              && id in next && next == db.runs[id := next[id]] && next[id].state.RunStopping? && next[id].revision == run.revision + 1
              && next[id].graph == run.graph && next[id].steps.Keys == run.steps.Keys
              && forall n :: n in run.steps ==> next[id].steps[n] == run.steps[n].(nextPollAt := None, pollFailures := None)
            else next == db.runs
  {
  }
}
