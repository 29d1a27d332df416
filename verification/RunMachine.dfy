/** The coordinator as a state machine (packages/run-control/service.ts): user commands may land between any two
    steps of the one advance in flight, and the adapter may answer anything. */
module RunMachine {
  import opened Wrappers
  import opened PipelineModel
  import opened Inspection
  import opened RunModel

  /** Calls to the adapter, and the moments an advance begins or commits what it saw. */
  datatype Call =
    | Begin(attempt: Id) | LookupCall(attempt: Id, absent: bool) | StartCall(attempt: Id) | StopCall(attempt: Id)
    | ChangeCall(attempt: Id) | CommitSeen(attempt: Id)

  datatype Stage =
    | AfterPrepare | LookedUp(seen: Observation) | FirstRead | Resolving | SecondRead | Cleared
    | Answered(seen: Observation) | Confirmed(seen: Observation) | Failing | Rejecting(reason: Rejection)

  datatype Flight = Flight(ticket: Ticket, stage: Stage, changeFailed: bool)

  datatype Machine = Machine(db: Database, flight: Option<Flight>, trace: seq<Call>)

  datatype Reply = Told(seen: Observation) | Threw | RefusedSubmission

  datatype Targets = TargetsSame | TargetsChanged | TargetsUnknown

  datatype Action =
    | Start(id: Id, workspace: Id, graphRevision: nat, graph: Graph, actor: Id, capabilities: map<Id, Capabilities>, fingerprint: Id)
    | Stop(id: Id, expectedRevision: nat)
    | Resume(id: Id, expectedRevision: nat)
    | Change(expected: Preview, changeId: Id, branchId: Id, actor: Id)
    | StopPending(id: Id, node: Id)
    | Prepare(id: Id, node: Id, attemptId: Id, now: nat)
    | CallStop(reply: Reply)
    | CallLookup(reply: Reply)
    | AfterLookup(now: nat, reply: Reply)
    | ReadLatest
    | Resolve(targets: Targets)
    | CallStart(reply: Reply)
    | CheckConfig(accepted: bool)
    | Commit(now: nat)
    | Fail(now: nat)
    | Reject
    | Abandon

  predicate UsedAttempt(db: Database, a: Id) {
    exists row :: row in db.attempts && row.attemptId == a
  }

  predicate Valid(reply: Reply) {
    reply.Told? && Reportable(reply.seen)
  }

  function AttemptOf(f: Flight): Id {
    if f.ticket.step.attemptId.Some? then f.ticket.step.attemptId.value else Id("")
  }

  predicate Mismatched(o: Observation, t: Ticket) {
    o.Seen? && (Some(o.attemptId) != t.step.attemptId || o.generation != t.step.generation)
  }

  /** A requested change is submitted only to a running attempt that does not have it yet. */
  predicate NeedsChange(t: Ticket, o: Observation, now: nat) {
    && t.step.change.Some? && o.Seen? && o.state.Running?
    && OrZero(t.step.change.value.nextAttemptAt) <= now
    && o.appliedConfig != Some(t.step.change.value.config)
  }

  function AfterObservation(f: Flight, o: Observation, changeFailed: bool): Flight {
    f.(stage := if o.Absent? && f.ticket.step.state.Dispatching? then FirstRead else Answered(o), changeFailed := changeFailed)
  }

  /** The stop intent as the advance reads it now. */
  predicate StoppingNow(db: Database, t: Ticket) {
    t.run.id in db.runs && db.runs[t.run.id].state.RunStopping?
  }

  /** Committing this observation would reach the live attempt. */
  predicate Reaches(db: Database, t: Ticket, o: Observation) {
    && StillCurrent(db, t) && SameGeneration(db, t) && o.Seen?
    && Some(o.attemptId) == t.step.attemptId && o.generation == t.step.generation
  }

  /** The steps of the advance in flight. */
  ghost function Advance(world: World, m: Machine, f: Flight, action: Action): Machine {
    var a := AttemptOf(f);
    var t := f.ticket;
    match (action, f.stage)
    case (CallStop(reply), AfterPrepare) =>
      if !t.run.state.RunStopping? then m
      else m.(trace := m.trace + [StopCall(a)],
              flight := Some(f.(stage := if Valid(reply) then Answered(reply.seen) else Failing)))
    case (CallLookup(reply), AfterPrepare) =>
      if t.run.state.RunStopping? then m
      else m.(trace := m.trace + [LookupCall(a, Valid(reply) && reply.seen.Absent?)],
              flight := Some(f.(stage := if Valid(reply) && !Mismatched(reply.seen, t) then LookedUp(reply.seen) else Failing)))
    case (AfterLookup(now, reply), LookedUp(o)) =>
      if !NeedsChange(t, o, now) then m.(flight := Some(AfterObservation(f, o, false)))
      else m.(trace := m.trace + [ChangeCall(a)],
              flight := Some(if Valid(reply) then AfterObservation(f, reply.seen, false) else AfterObservation(f, o, true)))
    case (ReadLatest, FirstRead) =>
      m.(flight := Some(f.(stage := if StoppingNow(m.db, t) then Rejecting(StopBeforeStart) else Resolving)))
    case (Resolve(targets), Resolving) =>
      m.(flight := Some(f.(stage := match targets
                                    case TargetsSame => SecondRead
                                    case TargetsChanged => Rejecting(IdentityChanged)
                                    case TargetsUnknown => Failing)))
    case (ReadLatest, SecondRead) =>
      m.(flight := Some(f.(stage := if StoppingNow(m.db, t) then Rejecting(StopBeforeDispatch) else Cleared)))
    case (CallStart(reply), Cleared) =>
      m.(trace := m.trace + [StartCall(a)],
         flight := Some(f.(stage := if Valid(reply) then Answered(reply.seen)
                                    else if reply.RefusedSubmission? then Rejecting(DispatchRejected) else Failing)))
    case (CheckConfig(accepted), Answered(o)) =>
      m.(flight := Some(f.(stage := if accepted then Confirmed(o) else Failing)))
    case (Commit(now), Confirmed(o)) =>
      Machine(CommittedIn(world, m.db, t, o, f.changeFailed, now), None,
              if Reaches(m.db, t, o) then m.trace + [CommitSeen(a)] else m.trace)
    case (Fail(now), Failing) => m.(db := FailedIn(m.db, t, now), flight := None)
    case (Reject, Rejecting(reason)) => m.(db := RejectedIn(m.db, t, reason), flight := None)
    case (Abandon, _) => m.(flight := None)
    case _ => m
  }

  /** Commands, and the two ways the tick loop touches a step while no advance is in flight. */
  ghost function Apply(world: World, m: Machine, action: Action): Machine {
    match action
    case Start(id, workspace, graphRevision, graph, actor, capabilities, fingerprint) =>
      if id in m.db.runs || !Executable(world.catalog, graph) then m
      else m.(db := Started(world, m.db, id, workspace, graphRevision, graph, actor, capabilities, fingerprint))
    case Stop(id, expectedRevision) => m.(db := StopRequestedIn(m.db, id, expectedRevision))
    case Resume(id, expectedRevision) => m.(db := ResumedIn(m.db, id, expectedRevision))
    case Change(expected, changeId, branchId, actor) =>
      if branchId in m.db.runs then m
      else m.(db := ChangedIn(world, m.db, expected.run, expected, changeId, branchId, actor))
    case StopPending(id, node) =>
      if m.flight.Some? || id !in m.db.runs || node !in m.db.runs[id].steps then m
      else m.(db := PendingStoppedIn(m.db, id, node))
    case Prepare(id, node, attemptId, now) =>
      if m.flight.Some? || id !in m.db.runs || node !in m.db.runs[id].steps || UsedAttempt(m.db, attemptId) then m
      else
        var prepared := PreparedIn(m.db, id, node, attemptId, now);
        if prepared.ticket.None? then m.(db := prepared.db)
        else
          var f := Flight(prepared.ticket.value, AfterPrepare, false);
          Machine(prepared.db, Some(f), m.trace + [Begin(AttemptOf(f))])
    case _ => if m.flight.None? then m else Advance(world, m, m.flight.value, action)
  }

  const Idle := Machine(Database(map[], [], []), None, [])

  ghost function RunAll(world: World, actions: seq<Action>): Machine {
    if actions == [] then Idle else Apply(world, RunAll(world, actions[..|actions| - 1]), actions[|actions| - 1])
  }
}
