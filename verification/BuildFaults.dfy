/** When a refused dispatch or an invalid result fails its build (packages/build-control/service.ts):
    always under one coordinator, not always under two, because a message is stored only once. */
module BuildFaults {
  import opened Wrappers
  import opened PipelineModel
  import opened Builds
  import opened BuildRuns

  /** None of the two messages with which the service itself fails a build. */
  predicate Foreign(service: Service, message: string) {
    message != service.refused && message != service.invalid
  }

  /** The builder's reports do not imitate them. */
  predicate Distinguished(service: Service, action: Action) {
    action.CallObserve? && action.reply.Told? ==> Foreign(service, action.reply.seen.message)
  }

  /** A build that has not ended does not carry one of them. */
  predicate Unmarked(service: Service, b: Build) {
    !Terminal(b) && b.message.Some? ==> Foreign(service, b.message.value)
  }

  predicate ForeignSighting(service: Service, f: Flight) {
    f.ToCancel? || f.ToJudge? || f.ToCommit? ==> Foreign(service, f.seen.message)
  }

  ghost predicate AllUnmarked(service: Service, m: Machine) {
    && (forall id :: id in m.db ==> Unmarked(service, m.db[id]))
    && (forall k :: k in m.flights ==> ForeignSighting(service, m.flights[k]))
  }

  lemma CommandsKeepUnmarked(service: Service, m: Machine, action: Action)
    requires AllUnmarked(service, m) && (action.Start? || action.Cancel? || action.Prepare? || action.BeginReconcile?)
    ensures AllUnmarked(service, Apply(service, true, m, action))
  {
  }

  /** A call brings in a foreign message at most. */
  lemma CallsKeepUnmarked(service: Service, m: Machine, k: nat, action: Action)
    requires AllUnmarked(service, m) && Distinguished(service, action)
    requires k in m.flights && m.flights[k].build.id in m.db && !Commits(m.flights[k])
    ensures AllUnmarked(service, Advance(service, m, k, m.flights[k], action))
  {
    assert ForeignSighting(service, m.flights[k]);
  }

  /** Under one coordinator a receipt finds its build still open. */
  lemma CommitsKeepUnmarked(service: Service, db: BuildTable, f: Flight, now: nat)
    requires Foreign(service, service.unclear)
    requires f.build.id in db && Commits(f) && DispatchOpen(db, f) && ForeignSighting(service, f)
    requires forall id :: id in db ==> Unmarked(service, db[id])
    ensures forall id :: id in Written(service, db, f, now) ==> Unmarked(service, Written(service, db, f, now)[id])
  {
  }

  lemma StepKeepsUnmarked(service: Service, m: Machine, action: Action)
    requires OneAdvance(m) && AllUnmarked(service, m) && Distinguished(service, action) && Foreign(service, service.unclear)
    ensures AllUnmarked(service, Apply(service, true, m, action))
  {
    if action.Start? || action.Cancel? || action.Prepare? || action.BeginReconcile? {
      CommandsKeepUnmarked(service, m, action);
    } else if action.flight in m.flights && m.flights[action.flight].build.id in m.db {
      var f := m.flights[action.flight];
      if Commits(f) {
        assert ForeignSighting(service, f) && DispatchOpen(m.db, f);
        CommitLands(service, m, action.flight, f, action);
        CommitsKeepUnmarked(service, m.db, f, ClockOf(action));
      } else {
        CallsKeepUnmarked(service, m, action.flight, action);
      }
    }
  }

  lemma {:induction false} SoloRunsAreUnmarked(service: Service, actions: seq<Action>)
    requires Foreign(service, service.unclear) && forall a :: a in actions ==> Distinguished(service, a)
    ensures AllUnmarked(service, RunAll(service, true, actions))
  {
    if actions != [] {
      var init := actions[..|actions| - 1];
      SoloRunsAreUnmarked(service, init);
      SoloRunsAdvanceOnce(service, init);
      StepKeepsUnmarked(service, RunAll(service, true, init), actions[|actions| - 1]);
    }
  }

  /** The action stores the fault of an advance of build `id`, which has not ended. */
  predicate StoresFault(m: Machine, action: Action, id: Id) {
    && action.CommitFault? && action.flight in m.flights && m.flights[action.flight].Faulty?
    && m.flights[action.flight].build.id == id && id in m.db && !Terminal(m.db[id])
  }

  /** In every run of one coordinator a fault fails its build exactly when it is final. */
  lemma FinalFaultsFail(service: Service, actions: seq<Action>, action: Action, id: Id)
    requires Foreign(service, service.unclear) && forall a :: a in actions ==> Distinguished(service, a)
    requires StoresFault(RunAll(service, true, actions), action, id)
    ensures var m := RunAll(service, true, actions);
            var f := m.flights[action.flight];
            var next := Apply(service, true, m, action);
            id in next.db && (next.db[id].state.Failed? <==> Final(f.dispatch, f.fault))
  {
    SoloRunsAreUnmarked(service, actions);
    assert Unmarked(service, RunAll(service, true, actions).db[id]);
  }

  /* ---------- two coordinators ---------- */

  /** An invalid result is judged and its build keeps running. */
  predicate Ignored(service: Service, actions: seq<Action>, action: Action, x: Id) {
    var m := RunAll(service, false, actions);
    var next := Apply(service, false, m, action);
    && StoresFault(m, action, x) && m.flights[action.flight].fault.InvalidResult?
    && x in next.db && next.db[x].state.Running?
  }

  /** One coordinator fails the build over an invalid result, the other's receipt reopens it with that message kept,
      and from then on an invalid result no longer fails it. */
  lemma InvalidResultCanBeIgnored(service: Service, profile: Profile, x: Id)
    ensures exists actions, action :: Ignored(service, actions, action, x)
  {
    var dispatching := Build(x, x, 2, profile, x, x, x, BuildState.Dispatching, None, None, None, None, None, None);
    var actions := BothAtWork(service, profile, x);
    var again := ReopenedWithMessage(service, actions, dispatching);
    var judged := InvalidAgain(service, again, x);
    assert Ignored(service, judged, CommitFault(1, 15000), x);
  }

  /** A claim without a result. */
  function Claim(x: Id): ObserveReply {
    Told(Sighting(x, x, Succeeded, "", None))
  }

  function Judged(actions: seq<Action>, k: nat, x: Id): seq<Action> {
    actions + [CallObserve(k, Claim(x))] + [Judge(k)]
  }

  lemma ClaimFails(service: Service, m: Machine, k: nat, b: Build)
    requires k in m.flights && m.flights[k] == ToObserve(b) && b.id in m.db
    ensures Apply(service, false, Apply(service, false, m, CallObserve(k, Claim(b.id))), Judge(k)) == Fly(m, k, Faulty(b, false, InvalidResult))
  {
    assert Apply(service, false, m, CallObserve(k, Claim(b.id))) == Fly(m, k, ToJudge(b, Claim(b.id).seen));
  }

  lemma JudgedFails(service: Service, actions: seq<Action>, k: nat, b: Build)
    requires var m := RunAll(service, false, actions);
             k in m.flights && m.flights[k] == ToObserve(b) && b.id in m.db
    ensures RunAll(service, false, Judged(actions, k, b.id)) == Fly(RunAll(service, false, actions), k, Faulty(b, false, InvalidResult))
  {
    Next(service, actions, CallObserve(k, Claim(b.id)));
    Next(service, actions + [CallObserve(k, Claim(b.id))], Judge(k));
    ClaimFails(service, RunAll(service, false, actions), k, b);
  }

  predicate StillMarked(service: Service, m: Machine, x: Id) {
    && 1 !in m.flights && x in m.db && m.db[x].id == x && m.db[x].state.Running?
    && m.db[x].message == Some(service.invalid) && m.db[x].nextPollAt == Some(15000)
  }

  lemma FaultThenReceipt(service: Service, m: Machine, b: Build)
    requires m == Machine(map[b.id := b], map[0 := Received(b, b.id, b.id), 1 := Faulty(b, false, InvalidResult)], [b.id])
    requires b.state.Dispatching? && b.message.None?
    ensures StillMarked(service, Apply(service, false, Apply(service, false, m, CommitFault(1, 0)), CommitReceipt(0, 0)), b.id)
  {
    var m1 := Apply(service, false, m, CommitFault(1, 0));
    assert m1 == Land(m, 1, FaultyIn(service, m.db, b.id, false, InvalidResult, 0));
    assert m1.flights == map[0 := Received(b, b.id, b.id)];
  }

  lemma ReopenedWithMessage(service: Service, actions: seq<Action>, b: Build) returns (again: seq<Action>)
    requires RunAll(service, false, actions) == Machine(map[b.id := b], map[0 := Received(b, b.id, b.id), 1 := ToObserve(b)], [b.id])
    requires b.state.Dispatching? && b.message.None?
    ensures StillMarked(service, RunAll(service, false, again), b.id)
  {
    var judged := Judged(actions, 1, b.id);
    JudgedFails(service, actions, 1, b);
    FaultThenReceipt(service, RunAll(service, false, judged), b);
    Next(service, judged, CommitFault(1, 0));
    Next(service, judged + [CommitFault(1, 0)], CommitReceipt(0, 0));
    again := judged + [CommitFault(1, 0)] + [CommitReceipt(0, 0)];
  }

  lemma LooksAgain(service: Service, m: Machine, x: Id)
    requires StillMarked(service, m, x)
    ensures Apply(service, false, m, BuildRuns.Action.Prepare(1, x, 15000)) == Fly(m, 1, ToObserve(m.db[x]))
  {
  }

  lemma FaultIsIgnored(service: Service, m: Machine, x: Id)
    requires StillMarked(service, m, x)
    ensures var judged := Fly(m, 1, Faulty(m.db[x], false, InvalidResult));
            var next := Apply(service, false, judged, CommitFault(1, 15000));
            StoresFault(judged, CommitFault(1, 15000), x) && x in next.db && next.db[x].state.Running?
  {
  }

  lemma InvalidAgain(service: Service, again: seq<Action>, x: Id) returns (judged: seq<Action>)
    requires StillMarked(service, RunAll(service, false, again), x)
    ensures Ignored(service, judged, CommitFault(1, 15000), x)
  {
    var m := RunAll(service, false, again);
    var looking := again + [BuildRuns.Action.Prepare(1, x, 15000)];
    Next(service, again, BuildRuns.Action.Prepare(1, x, 15000));
    LooksAgain(service, m, x);
    JudgedFails(service, looking, 1, m.db[x]);
    FaultIsIgnored(service, m, x);
    judged := Judged(looking, 1, x);
    assert RunAll(service, false, judged) == Fly(m, 1, Faulty(m.db[x], false, InvalidResult));
  }
}
