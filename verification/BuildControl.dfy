/** The build service itself: result validation and the transactions on stored builds (packages/build-control/service.ts). */
module BuildService {
  import opened Wrappers
  import opened PipelineModel
  import opened NodePackages
  import opened Reconciliation
  import opened Builds

  class BuildControl {
    const service: Service
    var builds: BuildTable

    constructor (service: Service)
      ensures builds == map[] && this.service == service
    {
      this.service, builds := service, map[];
    }

    /** Stores a queued build unless the same profile and source are already being built. */
    method StartBuild(id: Id, workspace: Id, profile: Profile, sourceRef: Id, sourceSha: Id, workflowSha: Id) returns (started: bool)
      modifies this
      ensures builds == StartedIn(old(builds), id, workspace, profile, sourceRef, sourceSha, workflowSha)
      ensures if started then id in builds && builds == old(builds)[id := builds[id]] && builds[id].state.Queued? else builds == old(builds)
      ensures started ==> builds[id].id == id && builds[id].workspace == workspace && builds[id].profile == profile
                          && builds[id].sourceRef == sourceRef && builds[id].sourceSha == sourceSha && builds[id].workflowSha == workflowSha
      ensures started <==> !exists k :: k in old(builds) && ActiveTwin(old(builds)[k], workspace, profile, sourceSha)
    {
      started := true;
      var todo := builds.Keys;
      while todo != {}
        invariant todo <= builds.Keys && builds == old(builds)
        invariant started <==> forall k :: k in builds && k !in todo ==> !ActiveTwin(builds[k], workspace, profile, sourceSha)
      {
        var k :| k in todo;
        todo := todo - {k};
        started := started && !ActiveTwin(builds[k], workspace, profile, sourceSha);
      }
      if started {
        builds := builds[id := Build(id, workspace, 1, profile, sourceRef, sourceSha, workflowSha, Queued, None, None, None, None, None, None)];
      }
    }

    method CancelBuild(id: Id, expectedRevision: nat)
      modifies this
      ensures builds == CancelledIn(old(builds), id, expectedRevision)
      ensures if id in old(builds) && old(builds)[id].revision == expectedRevision && !Terminal(old(builds)[id]) then
                && id in builds && builds == old(builds)[id := builds[id]]
                && builds[id] == old(builds)[id].(state := builds[id].state, nextPollAt := None, revision := expectedRevision + 1)
                && (builds[id].state.Cancelled? <==> old(builds)[id].state.Queued?)
                && (builds[id].state.Cancelling? <==> !old(builds)[id].state.Queued?)
              else builds == old(builds)
    {
      if id in builds && builds[id].revision == expectedRevision && !Terminal(builds[id]) {
        var b := builds[id];
        builds := builds[id := b.(state := if b.state.Queued? then Cancelled else Cancelling, nextPollAt := None, revision := b.revision + 1)];
      }
    }

    method CommitReconcile(id: Id, expectedRevision: nat, o: Sighting)
      modifies this
      ensures builds == ReconciledIn(old(builds), id, expectedRevision, o)
      ensures if id in old(builds) && old(builds)[id].revision == expectedRevision then
                && id in builds && builds == old(builds)[id := builds[id]]
                && builds[id].runId == Some(o.runId) && builds[id].url == Some(o.url) && builds[id].revision == expectedRevision + 1
                && builds[id].state == old(builds)[id].state && builds[id].result == old(builds)[id].result
              else builds == old(builds)
    {
      if id in builds && builds[id].revision == expectedRevision {
        var b := builds[id];
        builds := builds[id := b.(runId := Some(o.runId), url := Some(o.url), nextPollAt := None, pollFailures := None, revision := b.revision + 1)];
      }
    }

    /** The transaction that decides, once, to dispatch. */
    method Prepare(id: Id, now: nat) returns (build: Option<Build>, dispatch: bool)
      requires id in builds
      modifies this
      ensures Prepared(builds, build, dispatch) == PreparedIn(old(builds), id, now)
      ensures build.Some? <==> !Terminal(old(builds)[id]) && Due(old(builds)[id], now)
      ensures build.Some? ==> id in builds && build.value == builds[id] && !build.value.state.Queued?
      ensures dispatch <==> old(builds)[id].state.Queued? && Due(old(builds)[id], now)
      ensures if dispatch then builds[id].state.Dispatching? && builds == old(builds)[id := builds[id]] else builds == old(builds)
    {
      var b := builds[id];
      if Terminal(b) || !Due(b, now) {
        return None, false;
      }
      dispatch := b.state.Queued?;
      if dispatch {
        b := b.(state := Dispatching, revision := b.revision + 1);
        builds := builds[id := b];
      }
      build := Some(b);
    }

    method StoreReceipt(id: Id, runId: Id, url: Id, now: nat)
      requires id in builds
      modifies this
      ensures builds == ReceiptIn(old(builds), id, runId, url, now)
      ensures id in builds && builds == old(builds)[id := builds[id]]
      ensures builds[id].runId == Some(runId) && builds[id].url == Some(url) && builds[id].revision == old(builds)[id].revision + 1
      ensures builds[id].state == if old(builds)[id].state.Cancelling? then Cancelling else Running
      ensures builds[id].message == old(builds)[id].message && builds[id].result == old(builds)[id].result
    {
      var b := builds[id].(runId := Some(runId), url := Some(url));
      if !b.state.Cancelling? {
        b := b.(state := Running);
      }
      builds := builds[id := b.(nextPollAt := Some(now + 15000), pollFailures := None, revision := b.revision + 1)];
    }

    /** Accepts a result exactly when every identity, source, image and package check passes. */
    method ValidateResult(b: Build, runId: Id, r: BuildResult) returns (ok: bool)
      ensures ok <==> Genuine(b, runId, r)
    {
      if r.workflowSha != b.workflowSha {
        return false;
      }
      if r.buildId != b.id || r.profileId != b.profile.id || r.sourceRepository != b.profile.repository || r.sourceSha != b.sourceSha
         || r.runId != runId || r.image.repository != b.profile.imageRepository || r.package.key.id != b.profile.packageId
      {
        return false;
      }
      for i := 0 to |r.package.nodes|
        invariant forall j :: 0 <= j < i ==> Carries(r.package.nodes[j], r.image)
      {
        var n := r.package.nodes[i];
        assert n in r.package.nodes;
        if !Compiles(n) {
          return false;
        }
        if !n.execution.kind.Reference? && n.execution.image != Some(r.image) {
          return false;
        }
      }
      ok := true;
    }

    method StoreSighting(id: Id, o: Sighting, result: Option<BuildResult>, now: nat)
      requires id in builds
      modifies this
      ensures builds == SightedIn(old(builds), id, o, result, now)
      ensures builds.Keys == old(builds).Keys && forall k :: k in builds && k != id ==> builds[k] == old(builds)[k]
      ensures Terminal(old(builds)[id]) ==> builds[id] == old(builds)[id]
      ensures old(builds)[id].state.Cancelling? && o.state.Running? ==> builds[id].state.Cancelling?
      ensures !Terminal(old(builds)[id]) && Terminal(builds[id]) ==> builds[id].state == o.state && builds[id].runId == Some(o.runId)
    {
      var b := builds[id];
      if Terminal(b) {
        return;
      }
      b := b.(nextPollAt := Some(now + 15000), pollFailures := None);
      var next := if o.state.Running? && b.state.Cancelling? then Cancelling else o.state;
      if !(b.state == next && b.message == Some(o.message) && b.runId == Some(o.runId)) {
        b := b.(state := next, message := Some(o.message), runId := Some(o.runId), url := Some(o.url));
        if result.Some? {
          b := b.(result := result);
        }
        b := b.(revision := b.revision + 1);
      }
      builds := builds[id := b];
    }

    method StoreFault(id: Id, dispatch: bool, fault: Fault, now: nat)
      requires id in builds
      modifies this
      ensures builds == FaultyIn(service, old(builds), id, dispatch, fault, now)
      ensures !Terminal(old(builds)[id]) ==>
                (builds[id].state.Failed? <==> Final(dispatch, fault) && old(builds)[id].message != Some(FaultMessage(service, dispatch, fault)))
      ensures !Final(dispatch, fault) && builds[id].state != old(builds)[id].state ==> builds[id].state.Unknown?
      ensures old(builds)[id].state.Cancelling? ==> builds[id].state in {Cancelling, Failed}
    {
      var b := builds[id];
      if Terminal(b) {
        return;
      }
      var rejected := dispatch && fault.Refusal?;
      var invalid := rejected || fault.InvalidResult?;
      var failures := if b.pollFailures.Some? then b.pollFailures.value + 1 else 1;
      b := b.(pollFailures := Some(failures), nextPollAt := Some(now + RetryDelay(failures, 30000)));
      var message := if rejected then service.refused else if invalid then service.invalid else service.unclear;
      if b.message != Some(message) {
        var state := if invalid then Failed else if b.state.Cancelling? then Cancelling else Unknown;
        b := b.(state := state, message := Some(message), revision := b.revision + 1);
      }
      builds := builds[id := b];
    }
  }
}
