/** Any number of build coordinators over one store (packages/build-control/service.ts): builds are dispatched at most
    once, and nothing but a late dispatch receipt touches a build that ended. */
module BuildRuns {
  import opened Wrappers
  import opened PipelineModel
  import opened Builds

  /** One advance or reconciliation under way. */
  datatype Flight =
    | ToDispatch(build: Build)
    | Received(build: Build, runId: Id, url: Id)
    | ToObserve(build: Build)
    | ToCancel(build: Build, seen: Sighting)
    | ToJudge(build: Build, seen: Sighting)
    | ToCommit(build: Build, seen: Sighting, result: Option<BuildResult>)
    | Faulty(build: Build, dispatch: bool, fault: Fault)
    | ToConfirm(build: Build, expectedRevision: nat, runId: Id)
    | ToReconcile(build: Build, expectedRevision: nat, seen: Sighting)

  datatype Machine = Machine(db: BuildTable, flights: map<nat, Flight>, dispatched: seq<Id>)

  datatype DispatchReply = Accepted(runId: Id, url: Id) | DispatchFault(fault: Fault)

  datatype ObserveReply = Told(seen: Sighting) | NothingKnown | ObserveFault(fault: Fault)

  datatype Action =
    | Start(id: Id, workspace: Id, profile: Profile, sourceRef: Id, sourceSha: Id, workflowSha: Id)
    | Cancel(id: Id, expectedRevision: nat)
    | Prepare(flight: nat, id: Id, now: nat)
    | CallDispatch(flight: nat, answer: DispatchReply)
    | CommitReceipt(flight: nat, now: nat)
    | CallObserve(flight: nat, reply: ObserveReply)
    | CallCancel(flight: nat, fault: Option<Fault>)
    | Judge(flight: nat)
    | CommitSighting(flight: nat, now: nat)
    | CommitFault(flight: nat, now: nat)
    | BeginReconcile(flight: nat, id: Id, expectedRevision: nat, runId: Id)
    | ConfirmReconcile(flight: nat, reply: ObserveReply)
    | CommitReconcile(flight: nat)
    | Abandon(flight: nat)

  predicate Advancing(f: Flight) {
    !f.ToConfirm? && !f.ToReconcile?
  }

  predicate AdvanceInFlight(m: Machine) {
    exists k :: k in m.flights && Advancing(m.flights[k])
  }

  function Fly(m: Machine, k: nat, f: Flight): Machine {
    m.(flights := m.flights[k := f])
  }

  function Land(m: Machine, k: nat, db: BuildTable): Machine {
    m.(db := db, flights := m.flights - {k})
  }

  /** A cancel reaches the builder only for a build being cancelled that still runs. */
  function AfterObserve(b: Build, reply: ObserveReply): Flight {
    match reply
    case Told(o) =>
      if !Reportable(o) then Faulty(b, false, Unclear)
      else if b.state.Cancelling? && o.state.Running? then ToCancel(b, o) else ToJudge(b, o)
    case NothingKnown => Faulty(b, false, Unclear)
    case ObserveFault(fault) => Faulty(b, false, fault)
  }

  /** A claimed success needs a genuine result. */
  function AfterJudge(b: Build, o: Sighting): Flight {
    if !o.state.Succeeded? then ToCommit(b, o, None)
    else if o.result.Some? && Genuine(b, o.runId, o.result.value) then ToCommit(b, o, o.result)
    else Faulty(b, false, InvalidResult)
  }

  /** One step of flight `k`. */
  function Advance(service: Service, m: Machine, k: nat, f: Flight, action: Action): Machine
    requires f.build.id in m.db
  {
    match (action, f)
    case (CallDispatch(_, answer), ToDispatch(b)) =>
      Fly(m, k, if answer.Accepted? then Received(b, answer.runId, answer.url) else Faulty(b, true, answer.fault))
      .(dispatched := m.dispatched + [b.id])
    case (CommitReceipt(_, now), Received(b, runId, url)) => Land(m, k, ReceiptIn(m.db, b.id, runId, url, now))
    case (CallObserve(_, reply), ToObserve(b)) => Fly(m, k, AfterObserve(b, reply))
    case (CallCancel(_, fault), ToCancel(b, o)) => Fly(m, k, if fault.Some? then Faulty(b, false, fault.value) else ToJudge(b, o))
    case (Judge(_), ToJudge(b, o)) => Fly(m, k, AfterJudge(b, o))
    case (CommitSighting(_, now), ToCommit(b, o, result)) => Land(m, k, SightedIn(m.db, b.id, o, result, now))
    case (CommitFault(_, now), Faulty(b, dispatch, fault)) => Land(m, k, FaultyIn(service, m.db, b.id, dispatch, fault, now))
    case (ConfirmReconcile(_, reply), ToConfirm(b, revision, runId)) =>
      if reply.Told? && Reportable(reply.seen) && reply.seen.runId == runId
         && (reply.seen.state.Succeeded? ==> reply.seen.result.Some? && Genuine(b, runId, reply.seen.result.value))
      then Fly(m, k, ToReconcile(b, revision, reply.seen)) else Land(m, k, m.db)
    case (CommitReconcile(_), ToReconcile(b, revision, o)) => Land(m, k, ReconciledIn(m.db, b.id, revision, o))
    case (Abandon(_), _) => Land(m, k, m.db)
    case _ => m
  }

  /** With `solo` a coordinator begins an advance only while no other one is under way. */
  function Apply(service: Service, solo: bool, m: Machine, action: Action): Machine {
    match action
    case Start(id, workspace, profile, sourceRef, sourceSha, workflowSha) =>
      if id in m.db then m else m.(db := StartedIn(m.db, id, workspace, profile, sourceRef, sourceSha, workflowSha))
    case Cancel(id, expectedRevision) => m.(db := CancelledIn(m.db, id, expectedRevision))
    case Prepare(k, id, now) =>
      if k in m.flights || id !in m.db || (solo && AdvanceInFlight(m)) then m
      else
        var p := PreparedIn(m.db, id, now);
        if p.build.None? then m
        else Fly(m.(db := p.db), k, if p.dispatch then ToDispatch(p.build.value) else ToObserve(p.build.value))
    case BeginReconcile(k, id, expectedRevision, runId) =>
      if k in m.flights || id !in m.db || !MayReconcile(m.db[id], expectedRevision, runId) then m
      else Fly(m, k, ToConfirm(m.db[id], expectedRevision, runId))
    case _ =>
      if action.flight in m.flights && m.flights[action.flight].build.id in m.db
      then Advance(service, m, action.flight, m.flights[action.flight], action) else m
  }

  const Idle := Machine(map[], map[], [])

  function RunAll(service: Service, solo: bool, actions: seq<Action>): Machine {
    if actions == [] then Idle
    else Apply(service, solo, RunAll(service, solo, actions[..|actions| - 1]), actions[|actions| - 1])
  }

  /* ---------- what every transaction keeps ---------- */

  predicate SameBuild(a: Build, b: Build) {
    && b.id == a.id && b.workspace == a.workspace && b.profile == a.profile
    && b.sourceRef == a.sourceRef && b.sourceSha == a.sourceSha && b.workflowSha == a.workflowSha
  }

  /** Only the polling schedule may differ. */
  predicate SameNews(a: Build, b: Build) {
    b.state == a.state && b.runId == a.runId && b.result == a.result && b.message == a.message
  }

  /** The same build, later: its revision names its news, and queued is never re-entered. */
  predicate Later(a: Build, b: Build) {
    && SameBuild(a, b) && a.revision <= b.revision && (a.revision == b.revision ==> SameNews(a, b))
    && (b.state.Queued? ==> a.state.Queued?)
  }

  ghost predicate Evolves(a: BuildTable, b: BuildTable) {
    forall id :: id in a ==> id in b && Later(a[id], b[id])
  }

  /** A build that succeeded stores the genuine result of its confirmed run. */
  predicate BuildOk(id: Id, b: Build) {
    && b.id == id
    && (b.state.Succeeded? ==> b.result.Some? && b.runId.Some? && Genuine(b, b.runId.value, b.result.value))
  }

  ghost predicate TableOk(db: BuildTable) {
    forall id :: id in db ==> BuildOk(id, db[id])
  }

  predicate Snapshot(db: BuildTable, b: Build) {
    b.id in db && Later(b, db[b.id])
  }

  /** What a flight knows at its stage. */
  predicate StageOk(f: Flight) {
    !f.build.state.Queued? &&
    match f
    case ToCancel(_, o) => Reportable(o)
    case ToJudge(_, o) => Reportable(o)
    case ToCommit(b, o, result) =>
      Reportable(o) && (if o.state.Succeeded? then result.Some? && Genuine(b, o.runId, result.value) else result.None?)
    case ToConfirm(b, revision, runId) => MayReconcile(b, revision, runId)
    case ToReconcile(b, revision, o) =>
      && MayReconcile(b, revision, o.runId) && Reportable(o)
      && (o.state.Succeeded? ==> o.result.Some? && Genuine(b, o.runId, o.result.value))
    case _ => true
  }

  ghost predicate FlightsOk(db: BuildTable, flights: map<nat, Flight>) {
    forall k :: k in flights ==> Snapshot(db, flights[k].build) && StageOk(flights[k])
  }

  predicate Dispatches(flights: map<nat, Flight>, k: nat, id: Id) {
    k in flights && flights[k].ToDispatch? && flights[k].build.id == id
  }

  /** Every build has one chance to be dispatched: while queued, then in one flight, then it was dispatched. */
  ghost predicate OneChance(db: BuildTable, flights: map<nat, Flight>, dispatched: seq<Id>) {
    && (forall id :: id in dispatched ==> id in db && !db[id].state.Queued?)
    && (forall k, id :: Dispatches(flights, k, id) ==> id !in dispatched && id in db && !db[id].state.Queued?)
    && (forall j, k, id :: Dispatches(flights, j, id) && Dispatches(flights, k, id) ==> j == k)
    && (forall i, j :: 0 <= i < j < |dispatched| ==> dispatched[i] != dispatched[j])
  }

  ghost predicate Sound(m: Machine) {
    TableOk(m.db) && FlightsOk(m.db, m.flights) && OneChance(m.db, m.flights, m.dispatched)
  }

  lemma EvolvedFlights(a: BuildTable, b: BuildTable, flights: map<nat, Flight>)
    requires Evolves(a, b) && FlightsOk(a, flights)
    ensures FlightsOk(b, flights)
  {
    forall k | k in flights ensures Snapshot(b, flights[k].build) && StageOk(flights[k]) {
      assert Snapshot(a, flights[k].build);
      assert Later(a[flights[k].build.id], b[flights[k].build.id]);
    }
  }

  lemma EvolvedChance(a: BuildTable, b: BuildTable, flights: map<nat, Flight>, dispatched: seq<Id>)
    requires Evolves(a, b) && OneChance(a, flights, dispatched)
    ensures OneChance(b, flights, dispatched)
  {
    forall id | id in a && !a[id].state.Queued? ensures id in b && !b[id].state.Queued? {
      assert Later(a[id], b[id]);
    }
  }

  lemma StartEvolves(db: BuildTable, id: Id, workspace: Id, profile: Profile, sourceRef: Id, sourceSha: Id, workflowSha: Id)
    requires TableOk(db) && id !in db
    ensures var next := StartedIn(db, id, workspace, profile, sourceRef, sourceSha, workflowSha);
            Evolves(db, next) && TableOk(next)
  {
    assert forall k :: k in db ==> BuildOk(k, db[k]);
  }

  lemma CancelEvolves(db: BuildTable, id: Id, expectedRevision: nat)
    requires TableOk(db)
    ensures Evolves(db, CancelledIn(db, id, expectedRevision)) && TableOk(CancelledIn(db, id, expectedRevision))
  {
    assert forall k :: k in db ==> BuildOk(k, db[k]);
  }

  lemma ReconcileEvolves(db: BuildTable, b: Build, revision: nat, o: Sighting)
    requires TableOk(db) && Snapshot(db, b) && MayReconcile(b, revision, o.runId)
    ensures Evolves(db, ReconciledIn(db, b.id, revision, o)) && TableOk(ReconciledIn(db, b.id, revision, o))
  {
    assert forall k :: k in db ==> BuildOk(k, db[k]);
  }

  lemma PrepareEvolves(db: BuildTable, id: Id, now: nat)
    requires TableOk(db) && id in db
    ensures var p := PreparedIn(db, id, now);
            && Evolves(db, p.db) && TableOk(p.db)
            && (p.build.Some? ==> p.build.value.id == id && p.build.value == p.db[id] && !p.build.value.state.Queued?)
            && (p.build.None? ==> p.db == db) && (p.dispatch ==> db[id].state.Queued?)
  {
    assert forall k :: k in db ==> BuildOk(k, db[k]);
  }

  lemma ReceiptEvolves(db: BuildTable, id: Id, runId: Id, url: Id, now: nat)
    requires TableOk(db) && id in db
    ensures Evolves(db, ReceiptIn(db, id, runId, url, now)) && TableOk(ReceiptIn(db, id, runId, url, now))
  {
    assert forall k :: k in db ==> BuildOk(k, db[k]);
  }

  lemma SightingEvolves(db: BuildTable, b: Build, o: Sighting, result: Option<BuildResult>, now: nat)
    requires TableOk(db) && Snapshot(db, b) && StageOk(ToCommit(b, o, result))
    ensures Evolves(db, SightedIn(db, b.id, o, result, now)) && TableOk(SightedIn(db, b.id, o, result, now))
  {
    assert forall k :: k in db ==> BuildOk(k, db[k]);
  }

  lemma FaultEvolves(service: Service, db: BuildTable, id: Id, dispatch: bool, fault: Fault, now: nat)
    requires TableOk(db) && id in db
    ensures Evolves(db, FaultyIn(service, db, id, dispatch, fault, now)) && TableOk(FaultyIn(service, db, id, dispatch, fault, now))
  {
    assert forall k :: k in db ==> BuildOk(k, db[k]);
  }

  /* ---------- one step ---------- */

  lemma FewerChances(db: BuildTable, a: map<nat, Flight>, b: map<nat, Flight>, dispatched: seq<Id>)
    requires OneChance(db, a, dispatched)
    requires forall j, x :: Dispatches(b, j, x) ==> Dispatches(a, j, x)
    ensures OneChance(db, b, dispatched)
  {
  }

  lemma LandKeepsSound(m: Machine, k: nat, db: BuildTable)
    requires Sound(m) && Evolves(m.db, db) && TableOk(db)
    ensures Sound(Land(m, k, db))
  {
    EvolvedFlights(m.db, db, m.flights);
    EvolvedChance(m.db, db, m.flights, m.dispatched);
    assert forall j :: j in m.flights - {k} ==> j in m.flights && (m.flights - {k})[j] == m.flights[j];
    FewerChances(db, m.flights, m.flights - {k}, m.dispatched);
  }

  lemma CommandKeepsSound(m: Machine, db: BuildTable)
    requires Sound(m) && Evolves(m.db, db) && TableOk(db)
    ensures Sound(m.(db := db))
  {
    EvolvedFlights(m.db, db, m.flights);
    EvolvedChance(m.db, db, m.flights, m.dispatched);
  }

  /** Moving flight `k` on to a stage that is not a dispatch. */
  lemma FlyKeepsSound(m: Machine, k: nat, f: Flight)
    requires Sound(m) && Snapshot(m.db, f.build) && StageOk(f) && !f.ToDispatch?
    ensures Sound(Fly(m, k, f))
  {
    FewerChances(m.db, m.flights, m.flights[k := f], m.dispatched);
  }

  lemma ChanceTaken(db: BuildTable, flights: map<nat, Flight>, dispatched: seq<Id>, k: nat, f: Flight)
    requires OneChance(db, flights, dispatched) && Dispatches(flights, k, f.build.id) && !f.ToDispatch?
    ensures OneChance(db, flights[k := f], dispatched + [f.build.id])
  {
    forall j, x | Dispatches(flights[k := f], j, x) ensures Dispatches(flights, j, x) && x != f.build.id {
      assert j != k && Dispatches(flights, j, x);
    }
    FewerChances(db, flights, flights[k := f], dispatched);
  }

  lemma DispatchKeepsSound(m: Machine, k: nat, f: Flight)
    requires Sound(m) && k in m.flights && m.flights[k].ToDispatch? && f.build == m.flights[k].build
    requires StageOk(f) && !f.ToDispatch?
    ensures Sound(Fly(m, k, f).(dispatched := m.dispatched + [f.build.id]))
  {
    ChanceTaken(m.db, m.flights, m.dispatched, k, f);
  }

  lemma NewChance(a: BuildTable, b: BuildTable, flights: map<nat, Flight>, dispatched: seq<Id>, k: nat, id: Id)
    requires OneChance(a, flights, dispatched) && OneChance(b, flights, dispatched)
    requires k !in flights && id in a && a[id].state.Queued? && id in b && !b[id].state.Queued? && b[id].id == id
    ensures OneChance(b, flights[k := ToDispatch(b[id])], dispatched)
  {
    var more := flights[k := ToDispatch(b[id])];
    forall j, x | Dispatches(more, j, x) ensures if j == k then x == id else Dispatches(flights, j, x) && x != id {
      if j != k {
        assert Dispatches(flights, j, x);
      }
    }
    assert id !in dispatched;
  }

  lemma NewDispatchKeepsSound(m: Machine, k: nat, id: Id, db: BuildTable)
    requires Sound(m) && k !in m.flights && id in m.db && m.db[id].state.Queued?
    requires Evolves(m.db, db) && TableOk(db) && id in db && !db[id].state.Queued?
    ensures Sound(Fly(m.(db := db), k, ToDispatch(db[id])))
  {
    CommandKeepsSound(m, db);
    assert BuildOk(id, db[id]);
    NewChance(m.db, db, m.flights, m.dispatched, k, id);
  }

  lemma PrepareKeepsSound(m: Machine, k: nat, id: Id, now: nat)
    requires Sound(m) && k !in m.flights && id in m.db
    ensures var p := PreparedIn(m.db, id, now);
            p.build.Some? ==> Sound(Fly(m.(db := p.db), k, if p.dispatch then ToDispatch(p.build.value) else ToObserve(p.build.value)))
  {
    var p := PreparedIn(m.db, id, now);
    PrepareEvolves(m.db, id, now);
    if p.build.Some? {
      if p.dispatch {
        NewDispatchKeepsSound(m, k, id, p.db);
      } else {
        CommandKeepsSound(m, p.db);
        FlyKeepsSound(m.(db := p.db), k, ToObserve(p.build.value));
      }
    }
  }

  /** The stages that end in a transaction. */
  predicate Commits(f: Flight) {
    f.Received? || f.ToCommit? || f.Faulty? || f.ToReconcile?
  }

  lemma CallsKeepSound(service: Service, m: Machine, k: nat, f: Flight, action: Action)
    requires Sound(m) && k in m.flights && m.flights[k] == f && !Commits(f) && f.build.id in m.db
    ensures Sound(Advance(service, m, k, f, action))
  {
    assert Snapshot(m.db, f.build) && StageOk(f);
    match (action, f) {
      case (CallDispatch(_, answer), ToDispatch(b)) =>
        DispatchKeepsSound(m, k, if answer.Accepted? then Received(b, answer.runId, answer.url) else Faulty(b, true, answer.fault));
      case (CallObserve(_, reply), ToObserve(b)) => FlyKeepsSound(m, k, AfterObserve(b, reply));
      case (CallCancel(_, fault), ToCancel(b, o)) => CancelStep(m, k, b, o, fault);
      case (Judge(_), ToJudge(b, o)) => JudgeStep(m, k, b, o);
      case (ConfirmReconcile(_, reply), ToConfirm(b, revision, runId)) => ConfirmStep(service, m, k, reply);
      case (Abandon(_), _) => LandUnchanged(m, k);
      case _ =>
    }
  }

  /** What the transaction of a flight writes. */
  function Written(service: Service, db: BuildTable, f: Flight, now: nat): BuildTable
    requires Commits(f) && f.build.id in db
  {
    match f
    case Received(b, runId, url) => ReceiptIn(db, b.id, runId, url, now)
    case ToCommit(b, o, result) => SightedIn(db, b.id, o, result, now)
    case Faulty(b, dispatch, fault) => FaultyIn(service, db, b.id, dispatch, fault, now)
    case ToReconcile(b, revision, o) => ReconciledIn(db, b.id, revision, o)
  }

  lemma WrittenEvolves(service: Service, db: BuildTable, f: Flight, now: nat)
    requires TableOk(db) && Commits(f) && Snapshot(db, f.build) && StageOk(f)
    ensures Evolves(db, Written(service, db, f, now)) && TableOk(Written(service, db, f, now))
  {
    match f
    case Received(b, runId, url) => ReceiptEvolves(db, b.id, runId, url, now);
    case ToCommit(b, o, result) => SightingEvolves(db, b, o, result, now);
    case Faulty(b, dispatch, fault) => FaultEvolves(service, db, b.id, dispatch, fault, now);
    case ToReconcile(b, revision, o) => ReconcileEvolves(db, b, revision, o);
  }

  function ClockOf(action: Action): nat {
    match action
    case CommitReceipt(_, now) => now
    case CommitSighting(_, now) => now
    case CommitFault(_, now) => now
    case _ => 0
  }

  /** The action commits the flight. */
  predicate CommitOf(action: Action, f: Flight) {
    || (action.CommitReceipt? && f.Received?) || (action.CommitSighting? && f.ToCommit?)
    || (action.CommitFault? && f.Faulty?) || (action.CommitReconcile? && f.ToReconcile?)
  }

  lemma CommitLands(service: Service, m: Machine, k: nat, f: Flight, action: Action)
    requires Commits(f) && f.build.id in m.db
    ensures Advance(service, m, k, f, action)
            == if CommitOf(action, f) then Land(m, k, Written(service, m.db, f, ClockOf(action)))
               else if action.Abandon? then Land(m, k, m.db) else m
  {
  }

  lemma AdvanceKeepsSound(service: Service, m: Machine, k: nat, action: Action)
    requires Sound(m) && k in m.flights && m.flights[k].build.id in m.db
    ensures Sound(Advance(service, m, k, m.flights[k], action))
  {
    var f := m.flights[k];
    if !Commits(f) {
      CallsKeepSound(service, m, k, f, action);
    } else {
      assert Snapshot(m.db, f.build) && StageOk(f);
      CommitLands(service, m, k, f, action);
      WrittenEvolves(service, m.db, f, ClockOf(action));
      LandKeepsSound(m, k, Written(service, m.db, f, ClockOf(action)));
      LandUnchanged(m, k);
    }
  }

  lemma EvolvesItself(db: BuildTable)
    ensures Evolves(db, db)
  {
  }

  lemma LandUnchanged(m: Machine, k: nat)
    requires Sound(m)
    ensures Sound(Land(m, k, m.db))
  {
    EvolvesItself(m.db);
    LandKeepsSound(m, k, m.db);
  }

  lemma CancelStep(m: Machine, k: nat, b: Build, o: Sighting, fault: Option<Fault>)
    requires Sound(m) && Snapshot(m.db, b) && Reportable(o) && !b.state.Queued?
    ensures Sound(Fly(m, k, if fault.Some? then Faulty(b, false, fault.value) else ToJudge(b, o)))
  {
    FlyKeepsSound(m, k, if fault.Some? then Faulty(b, false, fault.value) else ToJudge(b, o));
  }

  lemma JudgeStep(m: Machine, k: nat, b: Build, o: Sighting)
    requires Sound(m) && Snapshot(m.db, b) && Reportable(o) && !b.state.Queued?
    ensures Sound(Fly(m, k, AfterJudge(b, o)))
  {
    FlyKeepsSound(m, k, AfterJudge(b, o));
  }

  lemma ConfirmStep(service: Service, m: Machine, k: nat, reply: ObserveReply)
    requires Sound(m) && k in m.flights && m.flights[k].ToConfirm? && m.flights[k].build.id in m.db
    ensures Sound(Advance(service, m, k, m.flights[k], ConfirmReconcile(k, reply)))
  {
    var f := m.flights[k];
    assert Snapshot(m.db, f.build) && StageOk(f);
    var next := Advance(service, m, k, f, ConfirmReconcile(k, reply));
    if next == Land(m, k, m.db) {
      LandUnchanged(m, k);
    } else {
      FlyKeepsSound(m, k, ToReconcile(f.build, f.expectedRevision, reply.seen));
    }
  }

  lemma ActionKeepsSound(service: Service, solo: bool, m: Machine, action: Action)
    requires Sound(m)
    ensures Sound(Apply(service, solo, m, action))
  {
    match action {
      case Start(id, workspace, profile, sourceRef, sourceSha, workflowSha) =>
        if id !in m.db {
          StartEvolves(m.db, id, workspace, profile, sourceRef, sourceSha, workflowSha);
          CommandKeepsSound(m, StartedIn(m.db, id, workspace, profile, sourceRef, sourceSha, workflowSha));
        }
      case Cancel(id, expectedRevision) =>
        CancelEvolves(m.db, id, expectedRevision);
        CommandKeepsSound(m, CancelledIn(m.db, id, expectedRevision));
      case Prepare(k, id, now) =>
        if k !in m.flights && id in m.db {
          PrepareKeepsSound(m, k, id, now);
        }
      case BeginReconcile(k, id, expectedRevision, runId) =>
        if k !in m.flights && id in m.db && MayReconcile(m.db[id], expectedRevision, runId) {
          assert BuildOk(id, m.db[id]);
          FlyKeepsSound(m, k, ToConfirm(m.db[id], expectedRevision, runId));
        }
      case _ =>
        if action.flight in m.flights && m.flights[action.flight].build.id in m.db {
          AdvanceKeepsSound(service, m, action.flight, action);
        }
    }
  }

  lemma {:induction false} RunsAreSound(service: Service, solo: bool, actions: seq<Action>)
    ensures Sound(RunAll(service, solo, actions))
  {
    if actions != [] {
      RunsAreSound(service, solo, actions[..|actions| - 1]);
      ActionKeepsSound(service, solo, RunAll(service, solo, actions[..|actions| - 1]), actions[|actions| - 1]);
    }
  }

  /* ---------- what holds of every run, under any number of coordinators ---------- */

  /** No build is dispatched twice. */
  lemma DispatchedAtMostOnce(service: Service, solo: bool, actions: seq<Action>, i: nat, j: nat)
    requires i < j < |RunAll(service, solo, actions).dispatched|
    ensures RunAll(service, solo, actions).dispatched[i] != RunAll(service, solo, actions).dispatched[j]
  {
    RunsAreSound(service, solo, actions);
  }

  /** A result handed out passed identity, source, image and package checks for its build and its confirmed run. */
  lemma HandedOutResultsAreGenuine(service: Service, solo: bool, actions: seq<Action>, id: Id)
    requires VerifiedResult(RunAll(service, solo, actions).db, id).Some?
    ensures var b := RunAll(service, solo, actions).db[id];
            b.runId.Some? && Genuine(b, b.runId.value, VerifiedResult(RunAll(service, solo, actions).db, id).value)
  {
    RunsAreSound(service, solo, actions);
    assert BuildOk(id, RunAll(service, solo, actions).db[id]);
  }

  /** A build that succeeded always has a result to hand out. */
  lemma SucceededBuildsHaveResults(service: Service, solo: bool, actions: seq<Action>, id: Id)
    requires id in RunAll(service, solo, actions).db && RunAll(service, solo, actions).db[id].state.Succeeded?
    ensures VerifiedResult(RunAll(service, solo, actions).db, id).Some?
  {
    RunsAreSound(service, solo, actions);
    assert BuildOk(id, RunAll(service, solo, actions).db[id]);
  }

  /** A reconciliation is committed only over the build it read, and never replaces a confirmed identity. */
  lemma ReconcileCommitsOverWhatItRead(service: Service, solo: bool, actions: seq<Action>, k: nat)
    requires k in RunAll(service, solo, actions).flights && RunAll(service, solo, actions).flights[k].ToReconcile?
    ensures var m := RunAll(service, solo, actions);
            var f := m.flights[k];
            && f.build.id in m.db
            && (f.seen.state.Succeeded? ==> f.seen.result.Some? && Genuine(f.build, f.seen.runId, f.seen.result.value))
            && (Apply(service, solo, m, CommitReconcile(k)).db != m.db ==>
                  && SameNews(f.build, m.db[f.build.id]) && m.db[f.build.id].state in {Unknown, Dispatching, Cancelling}
                  && (m.db[f.build.id].runId.None? || m.db[f.build.id].runId.value == f.seen.runId))
  {
    var m := RunAll(service, solo, actions);
    RunsAreSound(service, solo, actions);
    assert Snapshot(m.db, m.flights[k].build) && StageOk(m.flights[k]);
  }

  /** The action writes a dispatch receipt for build `id`. */
  predicate WritesReceipt(m: Machine, action: Action, id: Id) {
    && action.CommitReceipt? && action.flight in m.flights
    && m.flights[action.flight].Received? && m.flights[action.flight].build.id == id
  }

  /** Exactly a dispatch receipt changes a build that ended. */
  lemma OnlyALateReceiptReopens(service: Service, solo: bool, actions: seq<Action>, action: Action, id: Id)
    requires id in RunAll(service, solo, actions).db && Terminal(RunAll(service, solo, actions).db[id])
    ensures var m := RunAll(service, solo, actions);
            var next := Apply(service, solo, m, action);
            id in next.db && (next.db[id] != m.db[id] <==> WritesReceipt(m, action, id))
  {
    RunsAreSound(service, solo, actions);
    TerminalUnlessReceipt(service, solo, RunAll(service, solo, actions), action, id);
  }

  lemma TerminalUnlessReceipt(service: Service, solo: bool, m: Machine, action: Action, id: Id)
    requires Sound(m) && id in m.db && Terminal(m.db[id])
    ensures var next := Apply(service, solo, m, action);
            id in next.db && (next.db[id] != m.db[id] <==> WritesReceipt(m, action, id))
  {
    if action.Start? || action.Cancel? || action.Prepare? || action.BeginReconcile? {
      CommandsSpareTerminal(service, solo, m, action, id);
    } else if action.flight in m.flights && m.flights[action.flight].build.id in m.db {
      var f := m.flights[action.flight];
      assert Snapshot(m.db, f.build) && StageOk(f);
      FlightsSpareTerminal(service, m, action.flight, f, action, id);
    }
  }

  lemma CommandsSpareTerminal(service: Service, solo: bool, m: Machine, action: Action, id: Id)
    requires id in m.db && Terminal(m.db[id]) && (action.Start? || action.Cancel? || action.Prepare? || action.BeginReconcile?)
    ensures var next := Apply(service, solo, m, action);
            id in next.db && next.db[id] == m.db[id]
  {
  }

  lemma FlightsSpareTerminal(service: Service, m: Machine, k: nat, f: Flight, action: Action, id: Id)
    requires id in m.db && Terminal(m.db[id]) && Snapshot(m.db, f.build) && StageOk(f)
    ensures var next := Advance(service, m, k, f, action);
            id in next.db && (next.db[id] != m.db[id] <==> action.CommitReceipt? && f.Received? && f.build.id == id)
  {
  }

  /* ---------- one coordinator ---------- */

  /** At most one advance, and a build being dispatched has not ended. */
  ghost predicate OneAdvance(m: Machine) {
    OnlyAdvance(m.flights) && forall k :: k in m.flights ==> DispatchOpen(m.db, m.flights[k])
  }

  ghost predicate OnlyAdvance(flights: map<nat, Flight>) {
    forall j, k :: j in flights && k in flights && Advancing(flights[j]) && Advancing(flights[k]) ==> j == k
  }

  predicate DispatchOpen(db: BuildTable, f: Flight) {
    f.ToDispatch? || f.Received? ==> f.build.id in db && db[f.build.id].state in {Dispatching, Cancelling}
  }

  lemma SoloCommand(service: Service, m: Machine, action: Action)
    requires OneAdvance(m) && (action.Start? || action.Cancel?)
    ensures OneAdvance(Apply(service, true, m, action))
  {
    var next := Apply(service, true, m, action);
    forall k | k in next.flights ensures DispatchOpen(next.db, next.flights[k]) {
      assert DispatchOpen(m.db, m.flights[k]);
    }
  }

  lemma SoloBegin(service: Service, m: Machine, action: Action)
    requires OneAdvance(m) && (action.Prepare? || action.BeginReconcile?)
    requires forall id :: id in m.db ==> m.db[id].id == id
    ensures OneAdvance(Apply(service, true, m, action))
  {
    var next := Apply(service, true, m, action);
    forall k | k in next.flights ensures DispatchOpen(next.db, next.flights[k]) {
      if k in m.flights {
        assert DispatchOpen(m.db, m.flights[k]);
      }
    }
  }

  /** A flight's step leaves the other flights alone, and adds no advance. */
  lemma SoloFlights(service: Service, m: Machine, k: nat, action: Action)
    requires k in m.flights && m.flights[k].build.id in m.db && OnlyAdvance(m.flights)
    ensures var next := Advance(service, m, k, m.flights[k], action);
            && OnlyAdvance(next.flights)
            && (forall j :: j in next.flights && j != k ==> j in m.flights && next.flights[j] == m.flights[j])
            && (k in next.flights && (next.flights[k].ToDispatch? || next.flights[k].Received?) ==>
                  next.db == m.db && next.flights[k].build == m.flights[k].build && (m.flights[k].ToDispatch? || m.flights[k].Received?))
            && (!Advancing(m.flights[k]) ==> forall id :: id in m.db ==> id in next.db && next.db[id].state == m.db[id].state)
  {
  }

  /** An open dispatch stays open while another flight, which cannot be an advance, takes a step. */
  lemma DispatchStaysOpen(service: Service, m: Machine, k: nat, action: Action, j: nat)
    requires OneAdvance(m) && k in m.flights && m.flights[k].build.id in m.db
    requires j in Advance(service, m, k, m.flights[k], action).flights
    ensures DispatchOpen(Advance(service, m, k, m.flights[k], action).db, Advance(service, m, k, m.flights[k], action).flights[j])
  {
    SoloFlights(service, m, k, action);
    assert j in m.flights ==> DispatchOpen(m.db, m.flights[j]);
    assert DispatchOpen(m.db, m.flights[k]);
  }

  lemma SoloAdvance(service: Service, m: Machine, k: nat, action: Action)
    requires OneAdvance(m) && k in m.flights && m.flights[k].build.id in m.db
    ensures OneAdvance(Advance(service, m, k, m.flights[k], action))
  {
    var next := Advance(service, m, k, m.flights[k], action);
    SoloFlights(service, m, k, action);
    forall j | j in next.flights ensures DispatchOpen(next.db, next.flights[j]) {
      DispatchStaysOpen(service, m, k, action, j);
    }
  }

  lemma SoloStep(service: Service, m: Machine, action: Action)
    requires TableOk(m.db) && OneAdvance(m)
    ensures OneAdvance(Apply(service, true, m, action))
  {
    if action.Start? || action.Cancel? {
      SoloCommand(service, m, action);
    } else if action.Prepare? || action.BeginReconcile? {
      assert forall id :: id in m.db ==> BuildOk(id, m.db[id]);
      SoloBegin(service, m, action);
    } else if action.flight in m.flights && m.flights[action.flight].build.id in m.db {
      SoloAdvance(service, m, action.flight, action);
    }
  }

  lemma {:induction false} SoloRunsAdvanceOnce(service: Service, actions: seq<Action>)
    ensures OneAdvance(RunAll(service, true, actions))
  {
    if actions != [] {
      var init := actions[..|actions| - 1];
      SoloRunsAdvanceOnce(service, init);
      RunsAreSound(service, true, init);
      SoloStep(service, RunAll(service, true, init), actions[|actions| - 1]);
    }
  }

  /** With one coordinator a build that ended never changes again. */
  lemma {:induction false} TerminalIsFinal(service: Service, actions: seq<Action>, more: seq<Action>, id: Id)
    requires id in RunAll(service, true, actions).db && Terminal(RunAll(service, true, actions).db[id])
    ensures id in RunAll(service, true, actions + more).db
    ensures RunAll(service, true, actions + more).db[id] == RunAll(service, true, actions).db[id]
  {
    if more == [] {
      assert actions + more == actions;
    } else {
      var earlier := actions + more[..|more| - 1];
      var m := RunAll(service, true, earlier);
      TerminalIsFinal(service, actions, more[..|more| - 1], id);
      OnlyALateReceiptReopens(service, true, earlier, more[|more| - 1], id);
      SoloRunsAdvanceOnce(service, earlier);
      assert (actions + more)[..|actions + more| - 1] == earlier;
    }
  }

  /** With two coordinators a failed build can run again: one observes the failure before the other's receipt lands. */
  lemma TwoCoordinatorsCanReopen(service: Service, profile: Profile, x: Id)
    ensures exists actions, action :: Reopens(service, actions, action, x)
  {
    var actions := BothAtWork(service, profile, x);
    var late := FailureFirst(service, actions, Build(x, x, 2, profile, x, x, x, BuildState.Dispatching, None, None, None, None, None, None));
    assert Reopens(service, late, CommitReceipt(0, 0), x);
  }

  predicate Reopens(service: Service, actions: seq<Action>, action: Action, x: Id) {
    var m := RunAll(service, false, actions);
    var next := Apply(service, false, m, action);
    x in m.db && m.db[x].state.Failed? && x in next.db && next.db[x].state.Running?
  }

  lemma FailureFirst(service: Service, actions: seq<Action>, b: Build) returns (late: seq<Action>)
    requires RunAll(service, false, actions) == Machine(map[b.id := b], map[0 := Received(b, b.id, b.id), 1 := ToObserve(b)], [b.id])
    requires b.state.Dispatching? && b.runId.None?
    ensures Reopens(service, late, CommitReceipt(0, 0), b.id)
  {
    var observe := CallObserve(1, Told(Sighting(b.id, b.id, Failed, "", None)));
    FailureSeen(service, RunAll(service, false, actions), b);
    Next(service, actions, observe);
    Next(service, actions + [observe], Judge(1));
    Next(service, actions + [observe] + [Judge(1)], CommitSighting(1, 0));
    late := actions + [observe] + [Judge(1)] + [CommitSighting(1, 0)];
  }

  /** Coordinator 0 waits to store its receipt while coordinator 1 is about to observe the same build. */
  lemma BothAtWork(service: Service, profile: Profile, x: Id) returns (actions: seq<Action>)
    ensures var dispatching := Build(x, x, 2, profile, x, x, x, BuildState.Dispatching, None, None, None, None, None, None);
            RunAll(service, false, actions)
            == Machine(map[x := dispatching], map[0 := Received(dispatching, x, x), 1 := ToObserve(dispatching)], [x])
  {
    var queued := Build(x, x, 1, profile, x, x, x, BuildState.Queued, None, None, None, None, None, None);
    var start := Start(x, x, profile, x, x, x);
    Next(service, [], start);
    assert [] + [start] == [start];
    assert RunAll(service, false, [start]) == Machine(map[x := queued], map[], []);
    BothPrepare(service, RunAll(service, false, [start]), queued);
    Next(service, [start], Prepare(0, x, 0));
    Next(service, [start] + [Prepare(0, x, 0)], CallDispatch(0, Accepted(x, x)));
    Next(service, [start] + [Prepare(0, x, 0)] + [CallDispatch(0, Accepted(x, x))], Prepare(1, x, 0));
    actions := [start] + [Prepare(0, x, 0)] + [CallDispatch(0, Accepted(x, x))] + [Prepare(1, x, 0)];
  }

  lemma BothPrepare(service: Service, m: Machine, b: Build)
    requires m == Machine(map[b.id := b], map[], []) && b.state.Queued? && b.nextPollAt.None?
    ensures var next := b.(state := BuildState.Dispatching, revision := b.revision + 1);
            var m1 := Apply(service, false, m, Prepare(0, b.id, 0));
            var m2 := Apply(service, false, m1, CallDispatch(0, Accepted(b.id, b.id)));
            var m3 := Apply(service, false, m2, Prepare(1, b.id, 0));
            m3 == Machine(map[b.id := next], map[0 := Received(next, b.id, b.id), 1 := ToObserve(next)], [b.id])
  {
    var next := b.(state := BuildState.Dispatching, revision := b.revision + 1);
    var m1 := Apply(service, false, m, Prepare(0, b.id, 0));
    assert m1 == Machine(map[b.id := next], map[0 := ToDispatch(next)], []);
    var m2 := Apply(service, false, m1, CallDispatch(0, Accepted(b.id, b.id)));
    assert m2 == Machine(map[b.id := next], map[0 := Received(next, b.id, b.id)], [b.id]);
  }

  lemma FailureSeen(service: Service, m: Machine, b: Build)
    requires m == Machine(map[b.id := b], map[0 := Received(b, b.id, b.id), 1 := ToObserve(b)], [b.id])
    requires b.state.Dispatching? && b.runId.None?
    ensures var seen := Sighting(b.id, b.id, Failed, "", None);
            var m1 := Apply(service, false, m, CallObserve(1, Told(seen)));
            var m2 := Apply(service, false, m1, Judge(1));
            var m3 := Apply(service, false, m2, CommitSighting(1, 0));
            && b.id in m3.db && m3.db[b.id].state.Failed?
            && 0 in m3.flights && m3.flights[0] == Received(b, b.id, b.id)
  {
    var seen := Sighting(b.id, b.id, Failed, "", None);
    var m1 := Apply(service, false, m, CallObserve(1, Told(seen)));
    assert m1 == Fly(m, 1, ToJudge(b, seen));
    var m2 := Apply(service, false, m1, Judge(1));
    assert m2 == Fly(m1, 1, ToCommit(b, seen, None));
  }

  lemma Next(service: Service, actions: seq<Action>, action: Action)
    ensures RunAll(service, false, actions + [action]) == Apply(service, false, RunAll(service, false, actions), action)
  {
    assert (actions + [action])[..|actions|] == actions;
  }
}
