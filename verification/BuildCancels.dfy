/** A cancel reaches the builder (packages/build-control/service.ts). */
module BuildCancels {
  import opened Builds
  import opened BuildRuns

  /** Flight `k` asked the builder to cancel, and the builder did not object. */
  ghost predicate AskedToCancel(actions: seq<Action>, k: nat) {
    exists i :: 0 <= i < |actions| && actions[i].CallCancel? && actions[i].flight == k && actions[i].fault.None?
  }

  /** The flight saw a build running that was to be cancelled. */
  predicate SawItRunning(f: Flight) {
    (f.ToJudge? || f.ToCommit?) && f.build.state.Cancelling? && f.seen.state.Running?
  }

  lemma AskedEarlier(actions: seq<Action>, action: Action, k: nat)
    requires AskedToCancel(actions, k)
    ensures AskedToCancel(actions + [action], k)
  {
    var i :| 0 <= i < |actions| && actions[i].CallCancel? && actions[i].flight == k && actions[i].fault.None?;
    assert (actions + [action])[i] == actions[i];
  }

  lemma AskedNow(actions: seq<Action>, action: Action, k: nat)
    requires action.CallCancel? && action.flight == k && action.fault.None?
    ensures AskedToCancel(actions + [action], k)
  {
    assert (actions + [action])[|actions|] == action;
  }

  /** A flight comes to that stage by asking, or was there already. */
  lemma OnlyByAsking(service: Service, solo: bool, m: Machine, action: Action, k: nat)
    requires k in Apply(service, solo, m, action).flights && SawItRunning(Apply(service, solo, m, action).flights[k])
    ensures (k in m.flights && SawItRunning(m.flights[k])) || (action.CallCancel? && action.flight == k && action.fault.None?)
  {
    if action.Start? || action.Cancel? || action.Prepare? || action.BeginReconcile? {
    } else if action.flight in m.flights && m.flights[action.flight].build.id in m.db {
      FlightOnlyByAsking(service, m, action.flight, m.flights[action.flight], action, k);
    }
  }

  lemma FlightOnlyByAsking(service: Service, m: Machine, j: nat, f: Flight, action: Action, k: nat)
    requires f.build.id in m.db && j in m.flights && m.flights[j] == f
    requires k in Advance(service, m, j, f, action).flights && SawItRunning(Advance(service, m, j, f, action).flights[k])
    ensures (k in m.flights && SawItRunning(m.flights[k])) || (action.CallCancel? && j == k && action.fault.None?)
  {
  }

  /** In every run, whoever is about to store that a build to be cancelled still runs has asked the builder to cancel it. */
  lemma {:induction false} CancelsReachTheBuilder(service: Service, solo: bool, actions: seq<Action>, k: nat)
    requires k in RunAll(service, solo, actions).flights && SawItRunning(RunAll(service, solo, actions).flights[k])
    ensures AskedToCancel(actions, k)
  {
    if actions != [] {
      var init, last := actions[..|actions| - 1], actions[|actions| - 1];
      assert actions == init + [last];
      OnlyByAsking(service, solo, RunAll(service, solo, init), last, k);
      if k in RunAll(service, solo, init).flights && SawItRunning(RunAll(service, solo, init).flights[k]) {
        CancelsReachTheBuilder(service, solo, init, k);
        AskedEarlier(init, last, k);
      } else {
        AskedNow(init, last, k);
      }
    }
  }
}
