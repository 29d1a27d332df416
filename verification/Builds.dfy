/** Node builds and the transactions on them (packages/build-control/service.ts, packages/build-control/contracts.ts). */
module Builds {
  import opened Wrappers
  import opened PipelineModel
  import opened NodePackages
  import opened Reconciliation

  datatype BuildState = Queued | Dispatching | Running | Unknown | Cancelling | Cancelled | Succeeded | Failed

  datatype Repository = Repository(owner: Id, name: Id)

  datatype Profile = Profile(id: Id, repository: Repository, imageRepository: Id, packageId: Id)

  datatype BuildResult = BuildResult(buildId: Id, profileId: Id, sourceRepository: Repository, sourceSha: Id, workflowSha: Id,
                                     runId: Id, image: Image, package: Package)

  datatype Build = Build(
    id: Id, workspace: Id, revision: nat, profile: Profile, sourceRef: Id, sourceSha: Id, workflowSha: Id, state: BuildState,
    runId: Option<Id>, url: Option<Id>, result: Option<BuildResult>, message: Option<string>,
    nextPollAt: Option<nat>, pollFailures: Option<nat>)

  type BuildTable = map<Id, Build>

  /** What the builder reports: running, or a claimed end. */
  datatype Sighting = Sighting(runId: Id, url: Id, state: BuildState, message: string, result: Option<BuildResult>)

  predicate Reportable(o: Sighting) {
    o.state in {Running, Succeeded, Failed, Cancelled}
  }

  datatype Fault = Refusal | InvalidResult | Unclear

  /** The service's own three messages. */
  datatype Service = Service(refused: string, invalid: string, unclear: string)

  predicate Terminal(b: Build) {
    b.state in {Succeeded, Failed, Cancelled}
  }

  /** The node compiles and, unless it only refers to artifacts, runs in this image. */
  predicate Carries(n: Contribution, image: Image) {
    Compiles(n) && (n.execution.kind.Reference? || n.execution.image == Some(image))
  }

  /** The result is the one of this build: same workflow, build, profile, source, run, image and package. */
  predicate Genuine(b: Build, runId: Id, r: BuildResult) {
    && r.workflowSha == b.workflowSha && r.buildId == b.id && r.profileId == b.profile.id
    && r.sourceRepository == b.profile.repository && r.sourceSha == b.sourceSha && r.runId == runId
    && r.image.repository == b.profile.imageRepository && r.package.key.id == b.profile.packageId
    && forall n :: n in r.package.nodes ==> Carries(n, r.image)
  }

  /* ---------- user commands ---------- */

  predicate ActiveTwin(b: Build, workspace: Id, profile: Profile, sourceSha: Id) {
    b.workspace == workspace && b.profile.id == profile.id && b.sourceSha == sourceSha && !Terminal(b)
  }

  function StartedIn(db: BuildTable, id: Id, workspace: Id, profile: Profile, sourceRef: Id, sourceSha: Id, workflowSha: Id): BuildTable {
    if exists k :: k in db && ActiveTwin(db[k], workspace, profile, sourceSha) then db
    else db[id := Build(id, workspace, 1, profile, sourceRef, sourceSha, workflowSha, Queued, None, None, None, None, None, None)]
  }

  function CancelledIn(db: BuildTable, id: Id, expectedRevision: nat): BuildTable {
    if id !in db || db[id].revision != expectedRevision || Terminal(db[id]) then db
    else
      var b := db[id];
      db[id := b.(state := if b.state.Queued? then Cancelled else Cancelling, nextPollAt := None, revision := b.revision + 1)]
  }

  /** The checks a reconciliation makes on the build it read. */
  predicate MayReconcile(b: Build, expectedRevision: nat, runId: Id) {
    && b.revision == expectedRevision && b.state in {Unknown, Dispatching, Cancelling}
    && (b.runId.Some? ==> b.runId.value == runId)
  }

  /** The identity is taken over only if the build is still the one that was read. */
  function ReconciledIn(db: BuildTable, id: Id, expectedRevision: nat, o: Sighting): BuildTable {
    if id !in db || db[id].revision != expectedRevision then db
    else db[id := db[id].(runId := Some(o.runId), url := Some(o.url), nextPollAt := None, pollFailures := None,
                          revision := db[id].revision + 1)]
  }

  /* ---------- the coordinator ---------- */

  datatype Prepared = Prepared(db: BuildTable, build: Option<Build>, dispatch: bool)

  /** Not waiting for a later look. */
  predicate Due(b: Build, now: nat) {
    b.nextPollAt.Some? ==> b.nextPollAt.value <= now
  }

  /** Queued is left here, in the transaction that decides to dispatch. */
  function PreparedIn(db: BuildTable, id: Id, now: nat): Prepared
    requires id in db
  {
    var b := db[id];
    if Terminal(b) || !Due(b, now) then Prepared(db, None, false)
    else if b.state.Queued? then
      var next := b.(state := Dispatching, revision := b.revision + 1);
      Prepared(db[id := next], Some(next), true)
    else Prepared(db, Some(b), false)
  }

  /** The dispatch receipt is written whatever the build has become meanwhile. */
  function ReceiptIn(db: BuildTable, id: Id, runId: Id, url: Id, now: nat): BuildTable
    requires id in db
  {
    var b := db[id];
    db[id := b.(runId := Some(runId), url := Some(url), state := if b.state.Cancelling? then Cancelling else Running,
                nextPollAt := Some(now + 15000), pollFailures := None, revision := b.revision + 1)]
  }

  function SightedIn(db: BuildTable, id: Id, o: Sighting, result: Option<BuildResult>, now: nat): BuildTable
    requires id in db
  {
    var b := db[id];
    if Terminal(b) then db
    else
      var polled := b.(nextPollAt := Some(now + 15000), pollFailures := None);
      var state := if o.state.Running? && b.state.Cancelling? then Cancelling else o.state;
      if b.state == state && b.message == Some(o.message) && b.runId == Some(o.runId) then db[id := polled]
      else db[id := polled.(state := state, message := Some(o.message), runId := Some(o.runId), url := Some(o.url),
                            result := if result.Some? then result else b.result, revision := b.revision + 1)]
  }

  /** A refused dispatch and an invalid result; every other fault leaves the outcome open. */
  predicate Final(dispatch: bool, fault: Fault) {
    (dispatch && fault.Refusal?) || fault.InvalidResult?
  }

  function FaultMessage(service: Service, dispatch: bool, fault: Fault): string {
    if dispatch && fault.Refusal? then service.refused else if fault.InvalidResult? then service.invalid else service.unclear
  }

  function FaultyIn(service: Service, db: BuildTable, id: Id, dispatch: bool, fault: Fault, now: nat): BuildTable
    requires id in db
  {
    var b := db[id];
    if Terminal(b) then db
    else
      var failures := (if b.pollFailures.Some? then b.pollFailures.value else 0) + 1;
      var polled := b.(pollFailures := Some(failures), nextPollAt := Some(now + RetryDelay(failures, 30000)));
      var message := FaultMessage(service, dispatch, fault);
      if b.message == Some(message) then db[id := polled]
      else
        db[id := polled.(state := if Final(dispatch, fault) then Failed else if b.state.Cancelling? then Cancelling else Unknown,
                         message := Some(message), revision := b.revision + 1)]
  }

  /** What other services may use of a build. */
  function VerifiedResult(db: BuildTable, id: Id): Option<BuildResult> {
    if id in db && db[id].state.Succeeded? then db[id].result else None
  }
}
