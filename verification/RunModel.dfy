/** Durable runs and the transactions on them (packages/run-control/service.ts, packages/run-control/contracts.ts),
    as functions of the stored state. */
module RunModel {
  import opened Wrappers
  import opened PipelineModel
  import opened Cycles
  import opened Reconciliation

  /* ---------- stored state ---------- */

  datatype StepState = Pending | Dispatching | Queued | Running | Succeeded | Failed | Stopped | Unknown

  datatype RunState = RunQueued | RunRunning | RunSucceeded | RunFailed | RunStopping | RunStopped | RunAttention

  datatype Artifact = Artifact(uri: Id, kind: ArtifactKind)

  type Outputs = map<Id, Artifact>

  datatype Capabilities = Capabilities(image: Id, mutableFields: set<Id>, checkpoint: bool, safeRetry: bool)

  datatype ChangeState = ChangePending | ChangeUnknown

  datatype ConfigChange = ConfigChange(id: Id, config: Config, state: ChangeState, nextAttemptAt: Option<nat>, failures: Option<nat>)

  datatype Message =
    | Reported(text: string) | UpstreamFailed | OutcomeUnknown | ConfirmedAbsent | RecordMissing
    | AwaitingTerminal | MissingArtifact | Reused(run: Id) | RejectedFor(reason: Rejection)

  datatype Rejection = StopBeforeStart | IdentityChanged | StopBeforeDispatch | DispatchRejected

  datatype RunStep = RunStep(
    adapter: Id, state: StepState, config: Config, actualConfig: Config, capabilities: Option<Capabilities>,
    attemptId: Option<Id>, generation: nat, retries: nat, nextAttemptAt: Option<nat>, taskId: Option<Id>, serverId: Option<Id>,
    inputs: Outputs, outputs: Outputs, checkpoint: Option<Artifact>, message: Option<Message>, eventCursor: nat,
    effectiveStep: Option<nat>, nextPollAt: Option<nat>, pollFailures: Option<nat>, change: Option<ConfigChange>)

  type Steps = map<Id, RunStep>

  datatype Run = Run(id: Id, workspace: Id, graphRevision: nat, revision: nat, graph: Graph, state: RunState, parent: Option<Id>,
                     fingerprint: Option<Id>, createdBy: Id, steps: Steps)

  datatype Attempt = Attempt(run: Id, node: Id, attemptId: Id, generation: nat, observation: Option<Observation>)

  datatype EventKind =
    | Accepted | StopRequested | ResumeRequested | ChangeRequested | Branched | StepStopped | DispatchIntent
    | StepRejected(reason: Rejection) | StepRetry | StepObserved

  datatype Event = Event(run: Id, kind: EventKind)

  datatype Database = Database(runs: map<Id, Run>, attempts: seq<Attempt>, events: seq<Event>)

  /** What an adapter reports about an attempt. */
  datatype Observation =
    | Absent
    | Seen(state: StepState, attemptId: Id, generation: nat, taskId: Id, serverId: Option<Id>, outputs: Outputs,
           checkpoint: Option<Artifact>, terminalAuthority: bool, retryable: bool, appliedConfig: Option<Config>,
           effectiveStep: Option<nat>, message: Option<string>, sequences: seq<nat>)

  /** The states an observation may report. */
  predicate Reportable(o: Observation) {
    o.Seen? ==> o.state in {Queued, Running, Succeeded, Failed, Stopped, Unknown}
  }

  /** The catalog, and what the coordinator derives from a node or a run. */
  datatype World = World(catalog: Catalog, adapterOf: Node -> Id, referenceOutputs: Node -> Outputs, planOf: Run -> Id)

  /* ---------- small functions ---------- */

  predicate TerminalStep(s: RunStep) {
    s.state in {Succeeded, Failed, Stopped}
  }

  predicate TerminalRun(r: RunState) {
    r in {RunSucceeded, RunFailed, RunStopped}
  }

  predicate AllTerminal(steps: Steps) {
    forall n :: n in steps ==> TerminalStep(steps[n])
  }

  predicate Reference(catalog: Catalog, n: Node) {
    || n.kind.name.text in {"dataset", "model", "compute"}
    || (Lookup(catalog, n.kind).Some? && Lookup(catalog, n.kind).value.reference)
  }

  function OrZero(o: Option<nat>): nat {
    if o.Some? then o.value else 0
  }

  function SetStep(run: Run, node: Id, s: RunStep): Run {
    run.(steps := run.steps[node := s])
  }

  function Note(db: Database, run: Id, kind: EventKind): Database {
    db.(events := db.events + [Event(run, kind)])
  }

  /* ---------- aggregate ---------- */

  /** Never dispatched in this attempt cycle. */
  predicate Waiting(s: RunStep) {
    s.state.Pending? && s.attemptId.None?
  }

  predicate Unsuccessful(s: RunStep) {
    s.state.Failed? || s.state.Stopped?
  }

  /** A walk from an unsuccessful step through waiting steps. */
  ghost predicate BlockingWalk(edges: seq<Edge>, steps: Steps, walk: seq<Id>) {
    && |walk| > 1 && IsWalk(edges, walk)
    && walk[0] in steps && Unsuccessful(steps[walk[0]])
    && forall k :: 0 < k < |walk| ==> walk[k] in steps && Waiting(steps[walk[k]])
  }

  ghost predicate IsBlocked(edges: seq<Edge>, steps: Steps, n: Id) {
    exists walk :: BlockingWalk(edges, steps, walk) && walk[|walk| - 1] == n
  }

  /** The waiting steps that can never start: those downstream of a failure through waiting steps. */
  ghost function Blocked(edges: seq<Edge>, steps: Steps): set<Id> {
    set n | n in steps && IsBlocked(edges, steps, n)
  }

  function StopSteps(steps: Steps, blocked: set<Id>): Steps {
    map n | n in steps :: if n in blocked then steps[n].(state := Stopped, message := Some(UpstreamFailed)) else steps[n]
  }

  function Summary(steps: Steps): RunState {
    if forall n :: n in steps ==> steps[n].state.Succeeded? then RunSucceeded
    else if AllTerminal(steps) then RunFailed
    else if exists n :: n in steps && (steps[n].state.Failed? || steps[n].state.Unknown?) then RunAttention
    else RunRunning
  }

  ghost function Aggregated(run: Run): Run {
    if run.state.RunStopping? then (if AllTerminal(run.steps) then run.(state := RunStopped) else run)
    else
      var steps := StopSteps(run.steps, Blocked(run.graph.edges, run.steps));
      run.(steps := steps, state := Summary(steps))
  }

  /* ---------- starting, stopping and resuming a run ---------- */

  function NewStep(world: World, n: Node, capabilities: map<Id, Capabilities>): RunStep {
    var reference := Reference(world.catalog, n);
    RunStep(world.adapterOf(n), if reference then Succeeded else Pending, n.config, n.config,
            if n.id in capabilities then Some(capabilities[n.id]) else None,
            None, 0, 0, None, None, None, map[], if reference then world.referenceOutputs(n) else map[],
            None, None, 0, None, None, None, None)
  }

  function NewSteps(world: World, g: Graph, capabilities: map<Id, Capabilities>): Steps {
    map id | id in NodeIds(g.nodes) :: NewStep(world, FindNode(g.nodes, id).value, capabilities)
  }

  function NewRun(world: World, id: Id, workspace: Id, graphRevision: nat, g: Graph, actor: Id, capabilities: map<Id, Capabilities>): Run {
    Run(id, workspace, graphRevision, 1, g,
        if forall n :: n in g.nodes ==> Reference(world.catalog, n) then RunSucceeded else RunQueued,
        None, None, actor, NewSteps(world, g, capabilities))
  }

  predicate DuplicateOf(world: World, run: Run, workspace: Id, actor: Id, pipeline: Id, graphRevision: nat, fingerprint: Id) {
    && run.workspace == workspace && run.createdBy == actor && run.graph.id == pipeline && run.graphRevision == graphRevision
    && !TerminalRun(run.state)
    && (if run.fingerprint.Some? then run.fingerprint.value else world.planOf(run)) == fingerprint
  }

  function Started(world: World, db: Database, id: Id, workspace: Id, graphRevision: nat, g: Graph, actor: Id,
                   capabilities: map<Id, Capabilities>, fingerprint: Id): Database {
    if exists k :: k in db.runs && DuplicateOf(world, db.runs[k], workspace, actor, g.id, graphRevision, fingerprint) then db
    else
      var run := NewRun(world, id, workspace, graphRevision, g, actor, capabilities).(fingerprint := Some(fingerprint));
      Note(db.(runs := db.runs[id := run]), id, Accepted)
  }

  function StopRequestedOn(run: Run): Run {
    run.(state := RunStopping, revision := run.revision + 1,
         steps := map n | n in run.steps :: run.steps[n].(nextPollAt := None, pollFailures := None))
  }

  predicate MayStop(db: Database, id: Id, expectedRevision: nat) {
    id in db.runs && db.runs[id].revision == expectedRevision && !TerminalRun(db.runs[id].state)
  }

  function StopRequestedIn(db: Database, id: Id, expectedRevision: nat): Database {
    if !MayStop(db, id, expectedRevision) then db
    else Note(db.(runs := db.runs[id := StopRequestedOn(db.runs[id])]), id, StopRequested)
  }

  predicate MayResume(db: Database, id: Id, expectedRevision: nat) {
    && id in db.runs && db.runs[id].revision == expectedRevision
    && AllTerminal(db.runs[id].steps)
    && exists n :: n in db.runs[id].steps && Unsuccessful(db.runs[id].steps[n])
  }

  /** An unsuccessful step starts over; its generation and recorded inputs stay. */
  function ResumedStep(s: RunStep): RunStep {
    if s.state.Succeeded? then s
    else s.(state := Pending, retries := 0, eventCursor := 0, attemptId := None, taskId := None, change := None,
            nextAttemptAt := None, nextPollAt := None, pollFailures := None,
            checkpoint := if s.capabilities.Some? && s.capabilities.value.checkpoint then s.checkpoint else None)
  }

  function ResumedRun(run: Run): Run {
    run.(state := RunQueued, revision := run.revision + 1, steps := map n | n in run.steps :: ResumedStep(run.steps[n]))
  }

  function ResumedIn(db: Database, id: Id, expectedRevision: nat): Database {
    if !MayResume(db, id, expectedRevision) then db
    else Note(db.(runs := db.runs[id := ResumedRun(db.runs[id])]), id, ResumeRequested)
  }

  /* ---------- changing a running pipeline ---------- */

  datatype Mode = Online | Branch | CheckpointBranch | Refused

  datatype Preview = Preview(run: Id, revision: nat, node: Id, config: Config, mode: Mode, affected: set<Id>, reusable: set<Id>)

  /** The edited node and everything downstream of it. */
  ghost function Downstream(edges: seq<Edge>, n: Id): set<Id> {
    {n} + set e | e in edges && Reaches(edges, n, e.to.node) :: e.to.node
  }

  /** Fields with different values, missing ones included. */
  function ChangedFields(a: Config, b: Config): set<Id> {
    set k | k in a.Keys + b.Keys && !(k in a && k in b && a[k] == b[k])
  }

  function ReusableSteps(run: Run, affected: set<Id>): set<Id> {
    set n | n in run.steps && run.steps[n].state.Succeeded? && n !in affected
            && run.steps[n].actualConfig == run.steps[n].config && run.steps[n].change.None?
  }

  function ModeOf(run: Run, n: Id, config: Config, affected: set<Id>): Mode
    requires n in run.steps
  {
    var step := run.steps[n];
    var fields := ChangedFields(step.config, config);
    var mutable := step.capabilities.Some? && fields <= step.capabilities.value.mutableFields;
    var downstreamStarted := exists m :: m in run.steps && m != n && m in affected && !run.steps[m].state.Pending?;
    if fields == {} || step.change.Some? || run.state.RunStopping? then Refused
    else if step.state.Running? && !downstreamStarted && mutable then Online
    else if step.checkpoint.Some? && step.capabilities.Some? && step.capabilities.value.checkpoint && mutable then CheckpointBranch
    else Branch
  }

  datatype PreviewError = StaleRevision | NoSuchNode | NoSuchType | BadChange

  ghost function Previewed(world: World, run: Run, expectedRevision: nat, n: Id, config: Config): Result<Preview, PreviewError> {
    var node := FindNode(run.graph.nodes, n);
    if run.revision != expectedRevision then Failure(StaleRevision)
    else if node.None? || n !in run.steps then Failure(NoSuchNode)
    else if Lookup(world.catalog, node.value.kind).None? then Failure(NoSuchType)
    else if !Lookup(world.catalog, node.value.kind).value.accepts(config) then Failure(BadChange)
    else
      var affected := Downstream(run.graph.edges, n);
      if Reference(world.catalog, node.value) then Success(Preview(run.id, run.revision, n, config, Refused, affected, {}))
      else Success(Preview(run.id, run.revision, n, config, ModeOf(run, n, config, affected), affected, ReusableSteps(run, affected)))
  }

  /** The snapshot of a branch carries every accepted configuration and the edited one. */
  function BranchGraph(run: Run, n: Id, config: Config): Graph {
    run.graph.(nodes := seq(|run.graph.nodes|, i requires 0 <= i < |run.graph.nodes| =>
      var node := run.graph.nodes[i];
      if node.id == n then node.(config := config)
      else if node.id in run.steps then node.(config := run.steps[node.id].config)
      else node))
  }

  function StepCapabilities(run: Run): map<Id, Capabilities> {
    map n | n in run.steps && run.steps[n].capabilities.Some? :: run.steps[n].capabilities.value
  }

  function BranchStep(run: Run, p: Preview, n: Id, blank: RunStep): RunStep {
    var reused := if n in p.reusable && n in run.steps
                  then blank.(state := Succeeded, outputs := run.steps[n].outputs, actualConfig := run.steps[n].actualConfig,
                              message := Some(Reused(run.id)))
                  else blank;
    if n == p.node && p.mode.CheckpointBranch? && n in run.steps then reused.(checkpoint := run.steps[n].checkpoint) else reused
  }

  function BranchSteps(run: Run, p: Preview, blank: Steps): Steps {
    map n | n in blank :: BranchStep(run, p, n, blank[n])
  }

  function BranchRun(world: World, run: Run, p: Preview, id: Id, actor: Id): Run {
    var blank := NewRun(world, id, run.workspace, run.graphRevision, BranchGraph(run, p.node, p.config), actor, StepCapabilities(run));
    blank.(parent := Some(run.id), steps := BranchSteps(run, p, blank.steps))
  }

  function OnlineRun(run: Run, n: Id, config: Config, changeId: Id): Run
    requires n in run.steps
  {
    SetStep(run, n, run.steps[n].(change := Some(ConfigChange(changeId, config, ChangePending, None, None)), config := config))
    .(revision := run.revision + 1)
  }

  /** An accepted change is the one previewed; anything else is refused without effect. */
  ghost function ChangedIn(world: World, db: Database, id: Id, expected: Preview, changeId: Id, branchId: Id, actor: Id): Database {
    if id !in db.runs then db
    else
      var run := db.runs[id];
      var preview := Previewed(world, run, expected.revision, expected.node, expected.config);
      if preview.Failure? || preview.value != expected || expected.mode.Refused? then db
      else if expected.mode.Online? then
        if run.steps[expected.node].change.Some? then db
        else Note(db.(runs := db.runs[id := OnlineRun(run, expected.node, expected.config, changeId)]), id, ChangeRequested)
      else
        Note(db.(runs := db.runs[branchId := BranchRun(world, run, expected, branchId, actor)]), branchId, Branched)
  }

  /* ---------- one advance of one step ---------- */

  /** The snapshot an advance works on after its first transaction. */
  datatype Ticket = Ticket(run: Run, node: Id, step: RunStep)

  datatype Prepared = Prepared(db: Database, ticket: Option<Ticket>)

  predicate Later(at: Option<nat>, now: nat) {
    at.Some? && at.value > now
  }

  predicate Ready(edges: seq<Edge>, steps: Steps, n: Id) {
    forall e :: e in edges && e.to.node == n ==> e.from.node in steps && steps[e.from.node].state.Succeeded?
  }

  /** Outputs of the predecessors on the connected ports; a later edge wins. */
  function InputsOf(edges: seq<Edge>, steps: Steps, n: Id): Outputs {
    if edges == [] then map[]
    else
      var e := edges[|edges| - 1];
      var inputs := InputsOf(edges[..|edges| - 1], steps, n);
      if e.to.node == n && e.from.node in steps && e.from.port in steps[e.from.node].outputs
      then inputs[e.to.port := steps[e.from.node].outputs[e.from.port]] else inputs
  }

  function Dispatched(run: Run, n: Id, attemptId: Id): Run
    requires n in run.steps
  {
    var step := run.steps[n];
    SetStep(run, n, step.(nextAttemptAt := None, inputs := InputsOf(run.graph.edges, run.steps, n), attemptId := Some(attemptId),
                          generation := step.generation + 1, state := Dispatching))
    .(state := RunRunning, revision := run.revision + 1)
  }

  ghost function PreparedIn(db: Database, id: Id, n: Id, attemptId: Id, now: nat): Prepared
    requires id in db.runs && n in db.runs[id].steps
  {
    var run := db.runs[id];
    var step := run.steps[n];
    if TerminalStep(step) || Later(step.nextPollAt, now) then Prepared(db, None)
    else if run.state.RunStopping? && step.attemptId.None? then
      var stopped := Aggregated(SetStep(run, n, step.(state := Stopped)));
      Prepared(db.(runs := db.runs[id := stopped.(revision := stopped.revision + 1)]), None)
    else if !step.state.Pending? then Prepared(db, if step.attemptId.Some? then Some(Ticket(run, n, step)) else None)
    else if Later(step.nextAttemptAt, now) then Prepared(db, None)
    else if !Ready(run.graph.edges, run.steps, n) then
      Prepared(db.(runs := db.runs[id := SetStep(run, n, step.(nextAttemptAt := None))]), None)
    else
      var next := Dispatched(run, n, attemptId);
      var row := Attempt(id, n, attemptId, next.steps[n].generation, None);
      Prepared(Note(Database(db.runs[id := next], db.attempts + [row], db.events), id, DispatchIntent),
               Some(Ticket(next, n, next.steps[n])))
  }

  /** Pending work of a stopping run ends without an adapter. */
  ghost function PendingStoppedIn(db: Database, id: Id, n: Id): Database
    requires id in db.runs && n in db.runs[id].steps
  {
    var run := db.runs[id];
    var step := run.steps[n];
    if !run.state.RunStopping? || step.attemptId.Some? || TerminalStep(step) then db
    else
      var stopped := SetStep(run, n, step.(state := Stopped)).(revision := run.revision + 1);
      Note(db.(runs := db.runs[id := Aggregated(stopped)]), id, StepStopped)
  }

  /** The step is still the attempt the advance set out with. */
  predicate StillCurrent(db: Database, t: Ticket) {
    && t.run.id in db.runs && t.node in db.runs[t.run.id].steps
    && db.runs[t.run.id].steps[t.node].attemptId == t.step.attemptId
    && !TerminalStep(db.runs[t.run.id].steps[t.node])
  }

  ghost function RejectedIn(db: Database, t: Ticket, reason: Rejection): Database {
    if !StillCurrent(db, t) then db
    else
      var run := db.runs[t.run.id];
      var step := run.steps[t.node].(state := if run.state.RunStopping? then Stopped else Failed, message := Some(RejectedFor(reason)));
      Note(db.(runs := db.runs[t.run.id := Aggregated(SetStep(run, t.node, step).(revision := run.revision + 1))]),
           t.run.id, StepRejected(reason))
  }

  function FailedStep(s: RunStep, now: nat): RunStep {
    var failures := OrZero(s.pollFailures) + 1;
    s.(pollFailures := Some(failures), nextPollAt := Some(now + RetryDelay(failures)),
       state := if s.state.Dispatching? then Dispatching else Unknown,
       change := if s.change.Some? then Some(s.change.value.(state := ChangeUnknown)) else None,
       message := Some(OutcomeUnknown))
  }

  /** The attempt is still in flight, and still being dispatched if it was. */
  predicate SameAttempt(s: RunStep, t: RunStep) {
    && t.attemptId == s.attemptId && t.generation == s.generation && t.inputs == s.inputs && t.outputs == s.outputs
    && t.state == if s.state.Dispatching? then Dispatching else Unknown
  }

  /** An unclear outcome is never taken for a failure. */
  function FailedIn(db: Database, t: Ticket, now: nat): Database {
    if !StillCurrent(db, t) then db
    else
      var run := db.runs[t.run.id];
      var step := run.steps[t.node];
      db.(runs := db.runs[t.run.id := SetStep(run, t.node, FailedStep(step, now))
                           .(revision := run.revision + (if step.message != Some(OutcomeUnknown) then 1 else 0))])
  }

  function PolledAgain(s: RunStep, now: nat): RunStep {
    var failures := OrZero(s.pollFailures) + 1;
    s.(pollFailures := Some(failures), nextPollAt := Some(now + RetryDelay(failures)))
  }

  ghost function AbsentRun(run: Run, n: Id, now: nat): Run
    requires n in run.steps
  {
    var step := run.steps[n];
    if run.state.RunStopping? then
      var stopped := Aggregated(SetStep(run, n, step.(state := Stopped, message := Some(ConfirmedAbsent))));
      SetStep(stopped, n, PolledAgain(stopped.steps[n], now)).(revision := run.revision + 1)
    else
      var unknown := step.(state := Unknown, message := Some(RecordMissing));
      var changed := !(step.state.Unknown? && step.message == unknown.message && run.state.RunAttention?);
      SetStep(run, n, PolledAgain(unknown, now))
      .(state := RunAttention, revision := run.revision + (if changed then 1 else 0))
  }

  function MaxSequence(sequences: seq<nat>, cursor: nat): nat {
    if sequences == [] then cursor
    else MaxSequence(sequences[1..], if sequences[0] > cursor then sequences[0] else cursor)
  }

  predicate MissesOutput(declared: seq<Port>, outputs: Outputs) {
    exists p :: p in declared && !(p.name in outputs && outputs[p.name].kind == p.kind)
  }

  function DeclaredOutputs(catalog: Catalog, g: Graph, n: Id): seq<Port> {
    match FindNode(g.nodes, n)
    case None => []
    case Some(node) =>
      match Lookup(catalog, node.kind)
      case None => []
      case Some(d) => d.ports.outputs
  }

  function ChangeFailedStep(s: RunStep, was: RunStep, now: nat): RunStep {
    if s.change.Some? && was.change.Some? && s.change.value.id == was.change.value.id then
      var failures := OrZero(s.change.value.failures) + 1;
      s.(change := Some(s.change.value.(state := ChangeUnknown, failures := Some(failures), nextAttemptAt := Some(now + RetryDelay(failures)))))
    else s
  }

  predicate Retries(s: RunStep, o: Observation, stopping: bool)
    requires o.Seen?
  {
    && o.state.Failed? && o.terminalAuthority && o.retryable
    && s.capabilities.Some? && s.capabilities.value.safeRetry && s.retries < 2 && !stopping
  }

  function ReportedStep(s: RunStep, o: Observation): RunStep
    requires o.Seen?
  {
    s.(state := o.state, taskId := Some(o.taskId), serverId := o.serverId,
       message := if o.message.Some? then Some(Reported(o.message.value)) else None,
       checkpoint := if o.checkpoint.Some? then o.checkpoint else s.checkpoint)
  }

  /** Outputs are taken over only when every declared one arrived. */
  function FinishedStep(s: RunStep, o: Observation, declared: seq<Port>): RunStep
    requires o.Seen?
  {
    if !o.state.Succeeded? then s
    else if MissesOutput(declared, o.outputs) then s.(state := Failed, message := Some(MissingArtifact))
    else s.(outputs := o.outputs)
  }

  function AppliedStep(s: RunStep, o: Observation): RunStep
    requires o.Seen?
  {
    if o.appliedConfig.None? then s
    else s.(actualConfig := o.appliedConfig.value, effectiveStep := o.effectiveStep,
            change := if s.change.Some? && s.change.value.config == o.appliedConfig.value then None else s.change)
  }

  /** At most two retries of a failure that the authority confirmed. */
  function RetriedStep(s: RunStep, o: Observation, stopping: bool, now: nat): RunStep
    requires o.Seen?
  {
    if !Retries(s, o, stopping) then s
    else s.(retries := s.retries + 1, state := Pending, attemptId := None, taskId := None, change := None,
            nextAttemptAt := Some(now + 10000 * Power2(s.retries)),
            checkpoint := if s.capabilities.value.checkpoint then s.checkpoint else None)
  }

  function AdoptedStep(s: RunStep, o: Observation, declared: seq<Port>, stopping: bool, now: nat): RunStep
    requires o.Seen?
  {
    RetriedStep(AppliedStep(FinishedStep(ReportedStep(s, o), o, declared), o), o, stopping, now)
  }

  /** A terminal state without authority is not believed yet. */
  function JudgedStep(s: RunStep, o: Observation, declared: seq<Port>, stopping: bool, now: nat): RunStep
    requires o.Seen?
  {
    if o.state in {Succeeded, Failed, Stopped} && !o.terminalAuthority then s.(state := Unknown, message := Some(AwaitingTerminal))
    else AdoptedStep(s, o, declared, stopping, now)
  }

  function SettledStep(s: RunStep, was: RunStep, o: Observation, now: nat): RunStep
    requires o.Seen?
  {
    var failures := OrZero(was.pollFailures) + 1;
    s.(eventCursor := if s.state.Pending? then 0 else MaxSequence(o.sequences, s.eventCursor),
       change := if TerminalStep(s) then None else s.change,
       pollFailures := if s.state.Unknown? then Some(failures) else s.pollFailures,
       nextPollAt := if s.state.Unknown? then Some(now + RetryDelay(failures)) else s.nextPollAt)
  }

  function NotedStep(s: RunStep, was: RunStep, changeFailed: bool, now: nat): RunStep {
    var polled := s.(nextPollAt := None, pollFailures := None);
    if changeFailed then ChangeFailedStep(polled, was, now) else polled
  }

  function ObservedStep(current: RunStep, was: RunStep, o: Observation, changeFailed: bool, declared: seq<Port>, stopping: bool, now: nat): RunStep
    requires o.Seen?
  {
    SettledStep(JudgedStep(NotedStep(current, was, changeFailed, now), o, declared, stopping, now), was, o, now)
  }

  /** What users see of a step: everything but the polling schedule. */
  function Visible(s: RunStep): RunStep {
    s.(nextPollAt := None, pollFailures := None,
       change := if s.change.Some? then Some(s.change.value.(nextAttemptAt := None, failures := None)) else None)
  }

  function WithObservation(attempts: seq<Attempt>, attemptId: Id, o: Observation): seq<Attempt> {
    if attempts == [] then []
    else if attempts[0].attemptId == attemptId then [attempts[0].(observation := Some(o))] + attempts[1..]
    else [attempts[0]] + WithObservation(attempts[1..], attemptId, o)
  }

  ghost function SeenRun(world: World, run: Run, t: Ticket, o: Observation, changeFailed: bool, now: nat): Run
    requires o.Seen? && t.node in run.steps
  {
    var current := run.steps[t.node];
    var next := ObservedStep(current, t.step, o, changeFailed, DeclaredOutputs(world.catalog, run.graph, t.node), run.state.RunStopping?, now);
    Aggregated(SetStep(run, t.node, next).(revision := run.revision + (if Visible(current) != Visible(next) then 1 else 0)))
  }

  /** The events of a committed observation: a retry, then a visible change. */
  function SeenEvents(run: Id, current: RunStep, next: RunStep): seq<Event> {
    (if next.state.Pending? then [Event(run, StepRetry)] else [])
    + (if Visible(current) != Visible(next) then [Event(run, StepObserved)] else [])
  }

  predicate SameGeneration(db: Database, t: Ticket)
    requires StillCurrent(db, t)
  {
    db.runs[t.run.id].steps[t.node].generation == t.step.generation
  }

  /** An observation counts only for the live attempt and generation it was made for. */
  ghost function CommittedIn(world: World, db: Database, t: Ticket, o: Observation, changeFailed: bool, now: nat): Database {
    if !StillCurrent(db, t) || !SameGeneration(db, t) then db
    else
      var run := db.runs[t.run.id];
      var current := run.steps[t.node];
      if o.Absent? then
        var next := db.(runs := db.runs[t.run.id := AbsentRun(run, t.node, now)]);
        if run.state.RunStopping? then Note(next, t.run.id, StepStopped) else next
      else if Some(o.attemptId) != current.attemptId || o.generation != current.generation then db
      else
        var next := ObservedStep(current, t.step, o, changeFailed, DeclaredOutputs(world.catalog, run.graph, t.node), run.state.RunStopping?, now);
        Database(db.runs[t.run.id := SeenRun(world, run, t, o, changeFailed, now)],
                 WithObservation(db.attempts, o.attemptId, o),
                 db.events + SeenEvents(t.run.id, current, next))
  }
}
