/** Safety over every interleaving of user commands with the one advance in flight (packages/run-control/service.ts). */
module RunSafety {
  import opened Wrappers
  import opened PipelineModel
  import opened Inspection
  import opened RunModel
  import opened RunInvariants
  import opened RunTransitions
  import opened RunLedger
  import opened RunMoves
  import opened RunHistory
  import opened RunMachine

  type Trace = seq<Call>

  /* ---------- what the trace and the database agree on ---------- */

  ghost predicate Recorded(attempts: seq<Attempt>, a: Id) {
    exists i :: 0 <= i < |attempts| && attempts[i].attemptId == a
  }

  /** Every call is about a recorded attempt. */
  ghost predicate Traced(attempts: seq<Attempt>, trace: Trace) {
    forall k :: 0 <= k < |trace| ==> Recorded(attempts, trace[k].attempt)
  }

  /** The live attempt of a run that is not stopping was never told to stop. */
  ghost predicate Unstopped(runs: Runs, trace: Trace) {
    forall r, n, x :: Live(runs, r, n, x) && !StoppingRun(runs, r) ==> StopCall(x) !in trace
  }

  /** Nothing was observed and committed for an attempt still being dispatched. */
  ghost predicate Unseen(runs: Runs, trace: Trace) {
    forall r, n, x :: Live(runs, r, n, x) && DispatchingStep(runs, r, n) ==> CommitSeen(x) !in trace
  }

  /** A lookup of `a` said absent after the advance in flight began. */
  ghost predicate AbsentSince(trace: Trace, a: Id) {
    exists j :: 0 <= j < |trace| && trace[j] == LookupCall(a, true) && forall i :: j < i < |trace| ==> !trace[i].Begin?
  }

  /** A start may follow `before`: the attempt is known absent, was never stopped and never seen. */
  ghost predicate SafeToStart(before: Trace, a: Id) {
    AbsentSince(before, a) && StopCall(a) !in before && CommitSeen(a) !in before
  }

  ghost predicate StartsSafe(trace: Trace) {
    forall k :: 0 <= k < |trace| && trace[k].StartCall? ==> SafeToStart(trace[..k], trace[k].attempt)
  }

  /* ---------- the advance in flight ---------- */

  predicate SeenReportable(stage: Stage) {
    match stage
    case LookedUp(o) => Reportable(o)
    case Answered(o) => Reportable(o)
    case Confirmed(o) => Reportable(o)
    case _ => true
  }

  /** Stages of an advance that works for a run being stopped. */
  predicate StopStage(stage: Stage) {
    stage.AfterPrepare? || stage.Answered? || stage.Confirmed? || stage.Failing?
  }

  /** Stages on the way to a start. */
  predicate StartStage(stage: Stage) {
    stage.FirstRead? || stage.Resolving? || stage.SecondRead? || stage.Cleared?
  }

  ghost predicate TicketOk(attempts: seq<Attempt>, t: Ticket) {
    t.step.attemptId.Some? && StepOk(t.step) && RecordedFor(attempts, t.step.attemptId.value, t.run.id, t.node)
  }

  /** An advance that saw its run stopping, and whose attempt is still live, runs under that same stop. */
  ghost predicate StopStands(runs: Runs, t: Ticket, a: Id) {
    t.run.state.RunStopping? && Live(runs, t.run.id, t.node, a) ==> StoppingRun(runs, t.run.id)
  }

  ghost predicate MayStartLater(t: Ticket, trace: Trace, a: Id) {
    !t.run.state.RunStopping? && t.step.state.Dispatching? ==> StopCall(a) !in trace && CommitSeen(a) !in trace
  }

  ghost predicate StageOk(f: Flight, trace: Trace) {
    && SeenReportable(f.stage)
    && (f.ticket.run.state.RunStopping? ==> StopStage(f.stage))
    && (StartStage(f.stage) ==> f.ticket.step.state.Dispatching? && AbsentSince(trace, AttemptOf(f)))
    && (f.stage.LookedUp? && f.stage.seen.Absent? ==> AbsentSince(trace, AttemptOf(f)))
  }

  ghost predicate FlightOk(db: Database, trace: Trace, f: Flight) {
    && TicketOk(db.attempts, f.ticket) && StopStands(db.runs, f.ticket, AttemptOf(f))
    && MayStartLater(f.ticket, trace, AttemptOf(f)) && StageOk(f, trace)
  }

  ghost predicate TraceOk(db: Database, trace: Trace) {
    Traced(db.attempts, trace) && Unstopped(db.runs, trace) && Unseen(db.runs, trace) && StartsSafe(trace)
  }

  ghost predicate FlightsOk(db: Database, trace: Trace, flight: Option<Flight>) {
    flight.Some? ==> FlightOk(db, trace, flight.value)
  }

  ghost predicate Sound(m: Machine) {
    && DbOk(m.db) && TraceOk(m.db, m.trace)
    && FlightsOk(m.db, m.trace, m.flight)
  }

  /* ---------- a transaction keeps the trace facts ---------- */

  lemma RecordLasts(a: seq<Attempt>, b: seq<Attempt>, x: Id)
    requires RecordsLast(a, b) && Recorded(a, x)
    ensures Recorded(b, x)
  {
    var i :| 0 <= i < |a| && a[i].attemptId == x;
    assert SameRow(a[i], b[i]);
  }

  lemma MoveKeepsTraced(a: Database, b: Database, trace: Trace)
    requires RecordsLast(a.attempts, b.attempts) && Traced(a.attempts, trace)
    ensures Traced(b.attempts, trace)
  {
    forall k | 0 <= k < |trace| ensures Recorded(b.attempts, trace[k].attempt) {
      RecordLasts(a.attempts, b.attempts, trace[k].attempt);
    }
  }

  lemma FreshIsUntraced(attempts: seq<Attempt>, trace: Trace, c: Call)
    requires Traced(attempts, trace) && !Recorded(attempts, c.attempt)
    ensures c !in trace
  {
    forall k | 0 <= k < |trace| ensures trace[k] != c {
      assert Recorded(attempts, trace[k].attempt);
    }
  }

  lemma MoveKeepsLives(a: Database, b: Database, dispatched: Option<Id>, trace: Trace)
    requires LivesFrom(a.runs, b.runs, dispatched) && Traced(a.attempts, trace)
    requires Unstopped(a.runs, trace) && Unseen(a.runs, trace)
    requires dispatched.Some? ==> !Recorded(a.attempts, dispatched.value)
    ensures Unstopped(b.runs, trace) && Unseen(b.runs, trace)
  {
    if dispatched.Some? {
      FreshIsUntraced(a.attempts, trace, StopCall(dispatched.value));
      FreshIsUntraced(a.attempts, trace, CommitSeen(dispatched.value));
    }
    forall r, n, x | Live(b.runs, r, n, x)
      ensures !StoppingRun(b.runs, r) ==> StopCall(x) !in trace
      ensures DispatchingStep(b.runs, r, n) ==> CommitSeen(x) !in trace
    {
      if Some(x) != dispatched {
        assert LiveFrom(a.runs, b.runs, r, n, x);
      }
    }
  }

  lemma MoveKeepsTrace(a: Database, b: Database, dispatched: Option<Id>, trace: Trace)
    requires Moves(a, b, dispatched) && TraceOk(a, trace)
    requires dispatched.Some? ==> !Recorded(a.attempts, dispatched.value)
    ensures TraceOk(b, trace)
  {
    MoveKeepsTraced(a, b, trace);
    MoveKeepsLives(a, b, dispatched, trace);
  }

  lemma TicketLasts(a: seq<Attempt>, b: seq<Attempt>, t: Ticket)
    requires RecordsLast(a, b) && TicketOk(a, t)
    ensures TicketOk(b, t)
  {
    var i :| 0 <= i < |a| && a[i].attemptId == t.step.attemptId.value && a[i].run == t.run.id && a[i].node == t.node;
    assert SameRow(a[i], b[i]);
  }

  lemma StopStandsOn(a: Runs, b: Runs, t: Ticket, x: Id)
    requires LivesFrom(a, b, None) && StopStands(a, t, x)
    ensures StopStands(b, t, x)
  {
    if t.run.state.RunStopping? && Live(b, t.run.id, t.node, x) {
      assert LiveFrom(a, b, t.run.id, t.node, x);
    }
  }

  lemma FlightStands(a: Database, b: Database, trace: Trace, f: Flight)
    requires RecordsLast(a.attempts, b.attempts) && LivesFrom(a.runs, b.runs, None) && FlightOk(a, trace, f)
    ensures FlightOk(b, trace, f)
  {
    TicketLasts(a.attempts, b.attempts, f.ticket);
    StopStandsOn(a.runs, b.runs, f.ticket, AttemptOf(f));
  }

  /** A command landing between two steps of the advance keeps everything. */
  lemma CommandKeepsSound(m: Machine, db: Database)
    requires Sound(m) && Moves(m.db, db, None)
    ensures Sound(m.(db := db))
  {
    MoveKeepsTrace(m.db, db, None, m.trace);
    if m.flight.Some? {
      FlightStands(m.db, db, m.trace, m.flight.value);
    }
  }

  /* ---------- calls to the adapter ---------- */

  lemma TicketIsRecorded(attempts: seq<Attempt>, t: Ticket)
    requires TicketOk(attempts, t)
    ensures Recorded(attempts, t.step.attemptId.value)
  {
  }

  /** Neither a start nor a stop nor a commit. */
  predicate Harmless(c: Call) {
    c.Begin? || c.LookupCall? || c.ChangeCall?
  }

  lemma TracedMore(attempts: seq<Attempt>, trace: Trace, c: Call)
    requires Traced(attempts, trace) && Recorded(attempts, c.attempt)
    ensures Traced(attempts, trace + [c])
  {
  }

  lemma StartsStaySafe(trace: Trace, c: Call)
    requires StartsSafe(trace) && (c.StartCall? ==> SafeToStart(trace, c.attempt))
    ensures StartsSafe(trace + [c])
  {
    forall k | 0 <= k < |trace + [c]| && (trace + [c])[k].StartCall?
      ensures SafeToStart((trace + [c])[..k], (trace + [c])[k].attempt)
    {
      if k < |trace| {
        assert (trace + [c])[..k] == trace[..k];
      } else {
        assert (trace + [c])[..k] == trace;
      }
    }
  }

  lemma HarmlessKeepsTrace(db: Database, trace: Trace, c: Call)
    requires TraceOk(db, trace) && Recorded(db.attempts, c.attempt) && Harmless(c)
    ensures TraceOk(db, trace + [c])
  {
    TracedMore(db.attempts, trace, c);
    StartsStaySafe(trace, c);
    OthersStayUnstopped(db.runs, trace, c);
    OthersStayUnseen(db.runs, trace, c);
  }

  lemma StartKeepsTrace(db: Database, trace: Trace, a: Id)
    requires TraceOk(db, trace) && Recorded(db.attempts, a) && SafeToStart(trace, a)
    ensures TraceOk(db, trace + [StartCall(a)])
  {
    TracedMore(db.attempts, trace, StartCall(a));
    StartsStaySafe(trace, StartCall(a));
    OthersStayUnstopped(db.runs, trace, StartCall(a));
    OthersStayUnseen(db.runs, trace, StartCall(a));
  }

  /** The step a recorded attempt belongs to is the only one it can be live for. */
  lemma OnlyItsStep(db: Database, t: Ticket, r: Id, n: Id)
    requires StepsBooked(db.runs, db.attempts) && DistinctAttempts(db.attempts)
    requires TicketOk(db.attempts, t) && Live(db.runs, r, n, t.step.attemptId.value)
    ensures r == t.run.id && n == t.node
  {
    LiveAttemptIsRecorded(db.runs, db.attempts, r, n);
    AttemptNamesOneStep(db.attempts, t.step.attemptId.value, r, n, t.run.id, t.node);
  }

  lemma StopStaysUnstopped(db: Database, trace: Trace, t: Ticket)
    requires StepsBooked(db.runs, db.attempts) && DistinctAttempts(db.attempts)
    requires Unstopped(db.runs, trace) && TicketOk(db.attempts, t)
    requires t.run.state.RunStopping? && StopStands(db.runs, t, t.step.attemptId.value)
    ensures Unstopped(db.runs, trace + [StopCall(t.step.attemptId.value)])
  {
    var a := t.step.attemptId.value;
    forall r, n, x | Live(db.runs, r, n, x) && !StoppingRun(db.runs, r) ensures StopCall(x) !in trace + [StopCall(a)] {
      if x == a {
        OnlyItsStep(db, t, r, n);
      }
    }
  }

  lemma StopKeepsTrace(db: Database, trace: Trace, t: Ticket)
    requires StepsBooked(db.runs, db.attempts) && DistinctAttempts(db.attempts)
    requires TraceOk(db, trace) && TicketOk(db.attempts, t)
    requires t.run.state.RunStopping? && StopStands(db.runs, t, t.step.attemptId.value)
    ensures TraceOk(db, trace + [StopCall(t.step.attemptId.value)])
  {
    var a := t.step.attemptId.value;
    TicketIsRecorded(db.attempts, t);
    TracedMore(db.attempts, trace, StopCall(a));
    StartsStaySafe(trace, StopCall(a));
    StopStaysUnstopped(db, trace, t);
    OthersStayUnseen(db.runs, trace, StopCall(a));
  }

  lemma OthersStayUnseen(runs: Runs, trace: Trace, c: Call)
    requires Unseen(runs, trace) && !c.CommitSeen?
    ensures Unseen(runs, trace + [c])
  {
  }

  lemma OthersStayUnstopped(runs: Runs, trace: Trace, c: Call)
    requires Unstopped(runs, trace) && !c.StopCall?
    ensures Unstopped(runs, trace + [c])
  {
  }

  lemma SeenStaysUnseen(db: Database, trace: Trace, t: Ticket)
    requires StepsBooked(db.runs, db.attempts) && DistinctAttempts(db.attempts)
    requires Unseen(db.runs, trace) && TicketOk(db.attempts, t)
    requires !DispatchingStep(db.runs, t.run.id, t.node)
    ensures Unseen(db.runs, trace + [CommitSeen(t.step.attemptId.value)])
  {
    var a := t.step.attemptId.value;
    forall r, n, x | Live(db.runs, r, n, x) && DispatchingStep(db.runs, r, n) ensures CommitSeen(x) !in trace + [CommitSeen(a)] {
      if x == a {
        OnlyItsStep(db, t, r, n);
      }
    }
  }

  lemma SeenKeepsTrace(db: Database, trace: Trace, t: Ticket)
    requires StepsBooked(db.runs, db.attempts) && DistinctAttempts(db.attempts)
    requires TraceOk(db, trace) && TicketOk(db.attempts, t)
    requires !DispatchingStep(db.runs, t.run.id, t.node)
    ensures TraceOk(db, trace + [CommitSeen(t.step.attemptId.value)])
  {
    var a := t.step.attemptId.value;
    TicketIsRecorded(db.attempts, t);
    TracedMore(db.attempts, trace, CommitSeen(a));
    StartsStaySafe(trace, CommitSeen(a));
    OthersStayUnstopped(db.runs, trace, CommitSeen(a));
    SeenStaysUnseen(db, trace, t);
  }

  lemma AbsentNow(trace: Trace, a: Id)
    ensures AbsentSince(trace + [LookupCall(a, true)], a)
  {
    assert (trace + [LookupCall(a, true)])[|trace|] == LookupCall(a, true);
  }

  /* ---------- the steps of an advance ---------- */

  ghost predicate InFlightOk(db: Database, trace: Trace, f: Flight) {
    TraceOk(db, trace) && FlightOk(db, trace, f)
  }

  /** Moving to another stage without a call and without a transaction. */
  lemma StageKeepsFlight(db: Database, trace: Trace, f: Flight, next: Flight)
    requires FlightOk(db, trace, f) && next.ticket == f.ticket && StageOk(next, trace)
    ensures FlightOk(db, trace, next)
  {
  }

  /** Moving on with one harmless call. */
  lemma CallKeepsFlight(db: Database, trace: Trace, f: Flight, c: Call, next: Flight)
    requires InFlightOk(db, trace, f) && Harmless(c) && c.attempt == AttemptOf(f)
    requires next.ticket == f.ticket && StageOk(next, trace + [c])
    ensures InFlightOk(db, trace + [c], next)
  {
    TicketIsRecorded(db.attempts, f.ticket);
    HarmlessKeepsTrace(db, trace, c);
  }

  lemma StopCallKeepsFlight(db: Database, trace: Trace, f: Flight, stage: Stage)
    requires StepsBooked(db.runs, db.attempts) && DistinctAttempts(db.attempts)
    requires InFlightOk(db, trace, f) && f.ticket.run.state.RunStopping?
    requires StopStage(stage) && SeenReportable(stage)
    ensures InFlightOk(db, trace + [StopCall(AttemptOf(f))], f.(stage := stage))
  {
    StopKeepsTrace(db, trace, f.ticket);
  }

  lemma StartCallKeepsFlight(db: Database, trace: Trace, f: Flight, stage: Stage)
    requires InFlightOk(db, trace, f) && f.stage.Cleared?
    requires !StartStage(stage) && !stage.LookedUp? && SeenReportable(stage)
    ensures InFlightOk(db, trace + [StartCall(AttemptOf(f))], f.(stage := stage))
  {
    TicketIsRecorded(db.attempts, f.ticket);
    StartKeepsTrace(db, trace, AttemptOf(f));
  }

  lemma EndKeepsSound(m: Machine, db: Database)
    requires TraceOk(m.db, m.trace) && Moves(m.db, db, None)
    ensures Sound(Machine(db, None, m.trace))
  {
    MoveKeepsTrace(m.db, db, None, m.trace);
  }

  /** A commit that reaches the live attempt ends its dispatching. */
  lemma CommitEndsDispatch(world: World, db: Database, t: Ticket, o: Observation, changeFailed: bool, now: nat)
    requires DbOk(db) && t.step.attemptId.Some? && Reportable(o) && Reaches(db, t, o)
    ensures !DispatchingStep(CommittedIn(world, db, t, o, changeFailed, now).runs, t.run.id, t.node)
  {
    var run := db.runs[t.run.id];
    RunOf(db.runs, t.run.id);
    SeenIsNotDispatching(world, run, t, o, changeFailed, now);
    SeenCommit(world, db, t, o, changeFailed, now);
  }

  lemma SeenCommit(world: World, db: Database, t: Ticket, o: Observation, changeFailed: bool, now: nat)
    requires Reaches(db, t, o)
    ensures CommittedIn(world, db, t, o, changeFailed, now).runs
            == db.runs[t.run.id := SeenRun(world, db.runs[t.run.id], t, o, changeFailed, now)]
  {
  }

  lemma SeenIsNotDispatching(world: World, run: Run, t: Ticket, o: Observation, changeFailed: bool, now: nat)
    requires RunOk(run) && o.Seen? && Reportable(o) && t.node in run.steps
    requires !TerminalStep(run.steps[t.node]) && run.steps[t.node].attemptId.Some?
    ensures var next := SeenRun(world, run, t, o, changeFailed, now);
            t.node in next.steps && !next.steps[t.node].state.Dispatching?
  {
    var declared := DeclaredOutputs(world.catalog, run.graph, t.node);
    ObservedOk(run.steps[t.node], t.step, o, changeFailed, declared, run.state.RunStopping?, now);
    var next := ObservedStep(run.steps[t.node], t.step, o, changeFailed, declared, run.state.RunStopping?, now);
    AggregateStartsNothing(SetStep(run, t.node, next).(revision := run.revision + (if Visible(run.steps[t.node]) != Visible(next) then 1 else 0)), t.node);
  }

  lemma AggregateStartsNothing(run: Run, n: Id)
    requires n in run.steps && !run.steps[n].state.Dispatching?
    ensures n in Aggregated(run).steps && !Aggregated(run).steps[n].state.Dispatching?
  {
  }

  /** The trace after a commit, with the sighting logged if it reached the live attempt. */
  lemma SightingLogged(db: Database, next: Database, trace: Trace, t: Ticket, reached: bool)
    requires Moves(db, next, None) && TraceOk(db, trace) && TicketOk(db.attempts, t)
    requires reached ==> !DispatchingStep(next.runs, t.run.id, t.node)
    ensures DbOk(next) && TraceOk(next, if reached then trace + [CommitSeen(t.step.attemptId.value)] else trace)
  {
    MoveKeepsTrace(db, next, None, trace);
    if reached {
      TicketLasts(db.attempts, next.attempts, t);
      SeenKeepsTrace(next, trace, t);
    }
  }

  lemma CommitKeepsTrace(world: World, db: Database, trace: Trace, f: Flight, o: Observation, now: nat)
    requires DbOk(db) && TraceOk(db, trace) && TicketOk(db.attempts, f.ticket) && Reportable(o)
    ensures var next := CommittedIn(world, db, f.ticket, o, f.changeFailed, now);
            DbOk(next) && TraceOk(next, if Reaches(db, f.ticket, o) then trace + [CommitSeen(AttemptOf(f))] else trace)
  {
    CommitMove(world, db, f.ticket, o, f.changeFailed, now);
    if Reaches(db, f.ticket, o) {
      CommitEndsDispatch(world, db, f.ticket, o, f.changeFailed, now);
    }
    SightingLogged(db, CommittedIn(world, db, f.ticket, o, f.changeFailed, now), trace, f.ticket, Reaches(db, f.ticket, o));
  }

  lemma LandedIsSound(m: Machine)
    requires DbOk(m.db) && TraceOk(m.db, m.trace) && m.flight.None?
    ensures Sound(m)
  {
  }

  lemma CommitKeepsSound(world: World, m: Machine, f: Flight, action: Action)
    requires DbOk(m.db) && TraceOk(m.db, m.trace) && TicketOk(m.db.attempts, f.ticket)
    requires action.Commit? && f.stage.Confirmed? && Reportable(f.stage.seen)
    ensures Sound(Advance(world, m, f, action))
  {
    CommitKeepsTrace(world, m.db, m.trace, f, f.stage.seen, action.now);
    CommitIs(world, m, f, f.stage.seen, action.now);
    assert action == Commit(action.now);
    LandedIsSound(Advance(world, m, f, action));
  }

  lemma CommitIs(world: World, m: Machine, f: Flight, o: Observation, now: nat)
    requires f.stage == Confirmed(o)
    ensures Advance(world, m, f, Commit(now))
            == Machine(CommittedIn(world, m.db, f.ticket, o, f.changeFailed, now), None,
                       if Reaches(m.db, f.ticket, o) then m.trace + [CommitSeen(AttemptOf(f))] else m.trace)
  {
  }

  /** The next machine differs in flight and trace only, and both are sound. */
  ghost predicate SteppedTo(db: Database, m: Machine) {
    m.db == db && m.flight.Some? && InFlightOk(db, m.trace, m.flight.value)
  }

  lemma LookupSteps(world: World, m: Machine, f: Flight, reply: Reply)
    requires InFlightOk(m.db, m.trace, f) && f.stage.AfterPrepare? && !f.ticket.run.state.RunStopping?
    ensures SteppedTo(m.db, Advance(world, m, f, CallLookup(reply)))
  {
    var absent := Valid(reply) && reply.seen.Absent?;
    var stage := if Valid(reply) && !Mismatched(reply.seen, f.ticket) then LookedUp(reply.seen) else Failing;
    if absent {
      AbsentNow(m.trace, AttemptOf(f));
    }
    CallKeepsFlight(m.db, m.trace, f, LookupCall(AttemptOf(f), absent), f.(stage := stage));
  }

  lemma AfterLookupSteps(world: World, m: Machine, f: Flight, now: nat, reply: Reply)
    requires InFlightOk(m.db, m.trace, f) && f.stage.LookedUp?
    ensures SteppedTo(m.db, Advance(world, m, f, AfterLookup(now, reply)))
  {
    var o := f.stage.seen;
    var t := f.ticket;
    if !NeedsChange(t, o, now) {
      StageKeepsFlight(m.db, m.trace, f, AfterObservation(f, o, false));
    } else {
      assert !t.step.state.Dispatching?;
      var next := if Valid(reply) then AfterObservation(f, reply.seen, false) else AfterObservation(f, o, true);
      CallKeepsFlight(m.db, m.trace, f, ChangeCall(AttemptOf(f)), next);
    }
  }

  lemma StartSteps(world: World, m: Machine, f: Flight, reply: Reply)
    requires InFlightOk(m.db, m.trace, f) && f.stage.Cleared?
    ensures SteppedTo(m.db, Advance(world, m, f, CallStart(reply)))
  {
    var stage := if Valid(reply) then Answered(reply.seen) else if reply.RefusedSubmission? then Rejecting(DispatchRejected) else Failing;
    StartCallKeepsFlight(m.db, m.trace, f, stage);
  }

  lemma StopSteps(world: World, m: Machine, f: Flight, reply: Reply)
    requires StepsBooked(m.db.runs, m.db.attempts) && DistinctAttempts(m.db.attempts)
    requires InFlightOk(m.db, m.trace, f) && f.stage.AfterPrepare? && f.ticket.run.state.RunStopping?
    ensures SteppedTo(m.db, Advance(world, m, f, CallStop(reply)))
  {
    StopCallKeepsFlight(m.db, m.trace, f, if Valid(reply) then Answered(reply.seen) else Failing);
  }

  /** Reading the store, resolving targets and checking a configuration only choose the next stage. */
  predicate Chooses(action: Action, stage: Stage) {
    || (action.ReadLatest? && (stage.FirstRead? || stage.SecondRead?))
    || (action.Resolve? && stage.Resolving?)
    || (action.CheckConfig? && stage.Answered?)
  }

  function Choice(m: Machine, f: Flight, action: Action): Stage
    requires Chooses(action, f.stage)
  {
    if action.ReadLatest? then
      if StoppingNow(m.db, f.ticket) then Rejecting(if f.stage.FirstRead? then StopBeforeStart else StopBeforeDispatch)
      else if f.stage.FirstRead? then Resolving else Cleared
    else if action.Resolve? then
      (match action.targets case TargetsSame => SecondRead case TargetsChanged => Rejecting(IdentityChanged) case TargetsUnknown => Failing)
    else if action.accepted then Confirmed(f.stage.seen) else Failing
  }

  lemma ChoiceSteps(world: World, m: Machine, f: Flight, action: Action)
    requires InFlightOk(m.db, m.trace, f) && Chooses(action, f.stage)
    ensures SteppedTo(m.db, Advance(world, m, f, action))
  {
    StageKeepsFlight(m.db, m.trace, f, f.(stage := Choice(m, f, action)));
    ChoiceIsNext(world, m, f, action);
  }

  lemma ChoiceIsNext(world: World, m: Machine, f: Flight, action: Action)
    requires Chooses(action, f.stage)
    ensures Advance(world, m, f, action) == m.(flight := Some(f.(stage := Choice(m, f, action))))
  {
  }

  predicate Ends(action: Action, stage: Stage) {
    (action.Fail? && stage.Failing?) || (action.Reject? && stage.Rejecting?) || action.Abandon?
  }

  lemma FailedEnd(world: World, m: Machine, f: Flight, action: Action)
    requires DbOk(m.db) && TraceOk(m.db, m.trace) && f.ticket.step.attemptId.Some? && action.Fail? && f.stage.Failing?
    ensures Sound(Advance(world, m, f, action))
  {
    FailureMove(m.db, f.ticket, action.now);
    EndKeepsSound(m, FailedIn(m.db, f.ticket, action.now));
    assert Advance(world, m, f, action) == Machine(FailedIn(m.db, f.ticket, action.now), None, m.trace);
  }

  lemma RejectedEnd(world: World, m: Machine, f: Flight)
    requires DbOk(m.db) && TraceOk(m.db, m.trace) && f.stage.Rejecting?
    ensures Sound(Advance(world, m, f, Reject))
  {
    RejectionMove(m.db, f.ticket, f.stage.reason);
    EndKeepsSound(m, RejectedIn(m.db, f.ticket, f.stage.reason));
    assert Advance(world, m, f, Reject) == Machine(RejectedIn(m.db, f.ticket, f.stage.reason), None, m.trace);
  }

  lemma EndingKeepsSound(world: World, m: Machine, f: Flight, action: Action)
    requires DbOk(m.db) && TraceOk(m.db, m.trace) && f.ticket.step.attemptId.Some? && Ends(action, f.stage)
    ensures Sound(Advance(world, m, f, action))
  {
    if action.Fail? {
      FailedEnd(world, m, f, action);
    } else if action.Reject? {
      RejectedEnd(world, m, f);
    } else {
      MovesItself(m.db);
      EndKeepsSound(m, m.db);
    }
  }

  /** The action moves the advance on without ending it. */
  predicate Steps(f: Flight, action: Action) {
    || (action.CallStop? && f.stage.AfterPrepare? && f.ticket.run.state.RunStopping?)
    || (action.CallLookup? && f.stage.AfterPrepare? && !f.ticket.run.state.RunStopping?)
    || (action.AfterLookup? && f.stage.LookedUp?)
    || (action.CallStart? && f.stage.Cleared?)
    || Chooses(action, f.stage)
  }

  lemma StepsAreSound(world: World, m: Machine, f: Flight, action: Action)
    requires StepsBooked(m.db.runs, m.db.attempts) && DistinctAttempts(m.db.attempts)
    requires InFlightOk(m.db, m.trace, f) && Steps(f, action)
    ensures SteppedTo(m.db, Advance(world, m, f, action))
  {
    if action.CallStop? {
      StopSteps(world, m, f, action.reply);
    } else if action.CallLookup? {
      LookupSteps(world, m, f, action.reply);
    } else if action.AfterLookup? {
      AfterLookupSteps(world, m, f, action.now, action.reply);
    } else if action.CallStart? {
      StartSteps(world, m, f, action.reply);
    } else {
      ChoiceSteps(world, m, f, action);
    }
  }

  lemma OtherwiseNothing(world: World, m: Machine, f: Flight, action: Action)
    requires !Steps(f, action) && !Ends(action, f.stage) && !(action.Commit? && f.stage.Confirmed?)
    ensures Advance(world, m, f, action) == m
  {
  }

  lemma SteppedIsSound(db: Database, m: Machine)
    requires DbOk(db) && SteppedTo(db, m)
    ensures Sound(m)
  {
  }

  lemma NothingHappens(world: World, m: Machine, f: Flight, action: Action)
    requires Sound(m) && !Steps(f, action) && !Ends(action, f.stage) && !(action.Commit? && f.stage.Confirmed?)
    ensures Sound(Advance(world, m, f, action))
  {
    OtherwiseNothing(world, m, f, action);
  }

  lemma SteppingKeepsSound(world: World, m: Machine, f: Flight, action: Action)
    requires Sound(m) && m.flight == Some(f) && Steps(f, action)
    ensures Sound(Advance(world, m, f, action))
  {
    StepsAreSound(world, m, f, action);
    SteppedIsSound(m.db, Advance(world, m, f, action));
  }

  lemma ConfirmedFacts(m: Machine, f: Flight)
    requires Sound(m) && m.flight == Some(f) && f.stage.Confirmed?
    ensures DbOk(m.db) && TraceOk(m.db, m.trace) && TicketOk(m.db.attempts, f.ticket) && Reportable(f.stage.seen)
  {
  }

  lemma FinishingKeepsSound(world: World, m: Machine, f: Flight, action: Action)
    requires Sound(m) && m.flight == Some(f) && Ends(action, f.stage)
    ensures Sound(Advance(world, m, f, action))
  {
    EndingKeepsSound(world, m, f, action);
  }

  lemma AdvanceKeepsSound(world: World, m: Machine, f: Flight, action: Action)
    requires Sound(m) && m.flight == Some(f)
    ensures Sound(Advance(world, m, f, action))
  {
    if Steps(f, action) {
      SteppingKeepsSound(world, m, f, action);
    } else if action.Commit? && f.stage.Confirmed? {
      ConfirmedFacts(m, f);
      CommitKeepsSound(world, m, f, action);
    } else if Ends(action, f.stage) {
      FinishingKeepsSound(world, m, f, action);
    } else {
      NothingHappens(world, m, f, action);
    }
  }

  /* ---------- beginning an advance ---------- */

  lemma NewTicketIsOk(db: Database, t: Ticket, id: Id, n: Id)
    requires StepsBooked(db.runs, db.attempts) && IsTicket(db.runs, t, id, n)
    ensures TicketOk(db.attempts, t) && Recorded(db.attempts, t.step.attemptId.value)
    ensures StopStands(db.runs, t, t.step.attemptId.value)
  {
    LiveAttemptIsRecorded(db.runs, db.attempts, id, n);
  }

  lemma NewTicketMayStart(runs: Runs, trace: Trace, t: Ticket, id: Id, n: Id)
    requires Unstopped(runs, trace) && Unseen(runs, trace) && IsTicket(runs, t, id, n)
    ensures MayStartLater(t, trace + [Begin(t.step.attemptId.value)], t.step.attemptId.value)
  {
    assert Live(runs, id, n, t.step.attemptId.value);
  }

  lemma NewFlightIsOk(db: Database, trace: Trace, t: Ticket, id: Id, n: Id)
    requires StepsBooked(db.runs, db.attempts) && Unstopped(db.runs, trace) && Unseen(db.runs, trace) && IsTicket(db.runs, t, id, n)
    ensures FlightOk(db, trace + [Begin(t.step.attemptId.value)], Flight(t, AfterPrepare, false))
    ensures Recorded(db.attempts, t.step.attemptId.value)
  {
    NewTicketIsOk(db, t, id, n);
    NewTicketMayStart(db.runs, trace, t, id, n);
  }

  /** The machine after a prepare transaction: idle again, or with an advance begun. */
  function Begun(m: Machine, p: Prepared): Machine {
    match p.ticket
    case None => m.(db := p.db)
    case Some(t) =>
      var f := Flight(t, AfterPrepare, false);
      Machine(p.db, Some(f), m.trace + [Begin(AttemptOf(f))])
  }

  lemma PrepareBegins(world: World, m: Machine, id: Id, n: Id, a: Id, now: nat)
    requires m.flight.None?
    ensures Apply(world, m, Prepare(id, n, a, now))
            == if HasStep(m.db.runs, id, n) && !UsedAttempt(m.db, a) then Begun(m, PreparedIn(m.db, id, n, a, now)) else m
  {
  }

  lemma NothingBegun(m: Machine, p: Prepared)
    requires TraceOk(m.db, m.trace) && m.flight.None? && p.ticket.None? && Moves(m.db, p.db, None)
    ensures Sound(Begun(m, p))
  {
    EndKeepsSound(m, p.db);
    assert Begun(m, p) == Machine(p.db, None, m.trace);
  }

  lemma AdvanceBegun(m: Machine, p: Prepared, id: Id, n: Id)
    requires p.ticket.Some? && IsTicket(p.db.runs, p.ticket.value, id, n)
    requires DbOk(p.db) && TraceOk(p.db, m.trace)
    ensures Sound(Begun(m, p))
  {
    var t := p.ticket.value;
    NewFlightIsOk(p.db, m.trace, t, id, n);
    HarmlessKeepsTrace(p.db, m.trace, Begin(t.step.attemptId.value));
    assert Begun(m, p) == Machine(p.db, Some(Flight(t, AfterPrepare, false)), m.trace + [Begin(t.step.attemptId.value)]);
  }

  lemma UnusedIsUnrecorded(db: Database, a: Id)
    requires !UsedAttempt(db, a)
    ensures forall i :: 0 <= i < |db.attempts| ==> db.attempts[i].attemptId != a
    ensures !Recorded(db.attempts, a)
  {
    forall i | 0 <= i < |db.attempts| ensures db.attempts[i].attemptId != a {
      assert db.attempts[i] in db.attempts;
    }
  }

  lemma PrepareKeepsSound(m: Machine, id: Id, n: Id, a: Id, now: nat)
    requires DbOk(m.db) && TraceOk(m.db, m.trace) && m.flight.None? && HasStep(m.db.runs, id, n) && !UsedAttempt(m.db, a)
    ensures Sound(Begun(m, PreparedIn(m.db, id, n, a, now)))
  {
    var p := PreparedIn(m.db, id, n, a, now);
    UnusedIsUnrecorded(m.db, a);
    PrepareMove(m.db, id, n, a, now);
    if p.ticket.None? {
      NothingBegun(m, p);
    } else {
      if p.ticket.value.step.attemptId == Some(a) {
        MoveKeepsTrace(m.db, p.db, Some(a), m.trace);
      }
      AdvanceBegun(m, p, id, n);
    }
  }

  /* ---------- every action, every run ---------- */

  lemma CommandsKeepSound(world: World, m: Machine, action: Action)
    requires Sound(m) && (action.Start? || action.Stop? || action.Resume? || action.Change?)
    ensures Sound(Apply(world, m, action))
  {
    if action.Start? {
      if action.id !in m.db.runs && Executable(world.catalog, action.graph) {
        StartMove(world, m.db, action.id, action.workspace, action.graphRevision, action.graph, action.actor, action.capabilities, action.fingerprint);
        CommandKeepsSound(m, Started(world, m.db, action.id, action.workspace, action.graphRevision, action.graph, action.actor,
                                     action.capabilities, action.fingerprint));
      }
    } else if action.Stop? {
      StopMove(m.db, action.id, action.expectedRevision);
      CommandKeepsSound(m, StopRequestedIn(m.db, action.id, action.expectedRevision));
    } else if action.Resume? {
      ResumeMove(m.db, action.id, action.expectedRevision);
      CommandKeepsSound(m, ResumedIn(m.db, action.id, action.expectedRevision));
    } else if action.branchId !in m.db.runs {
      ChangeMove(world, m.db, action.expected, action.changeId, action.branchId, action.actor);
      CommandKeepsSound(m, ChangedIn(world, m.db, action.expected.run, action.expected, action.changeId, action.branchId, action.actor));
    }
  }

  lemma PendingStopKeepsSound(world: World, m: Machine, id: Id, n: Id)
    requires Sound(m) && m.flight.None? && HasStep(m.db.runs, id, n)
    ensures Sound(m.(db := PendingStoppedIn(m.db, id, n)))
  {
    PendingStopMove(m.db, id, n);
    CommandKeepsSound(m, PendingStoppedIn(m.db, id, n));
  }

  lemma PendingStopIs(world: World, m: Machine, id: Id, n: Id)
    ensures Apply(world, m, StopPending(id, n))
            == if m.flight.None? && HasStep(m.db.runs, id, n) then m.(db := PendingStoppedIn(m.db, id, n)) else m
  {
  }

  lemma ActionKeepsSound(world: World, m: Machine, action: Action)
    requires Sound(m)
    ensures Sound(Apply(world, m, action))
  {
    if action.Start? || action.Stop? || action.Resume? || action.Change? {
      CommandsKeepSound(world, m, action);
    } else if action.StopPending? {
      PendingStopIs(world, m, action.id, action.node);
      if m.flight.None? && HasStep(m.db.runs, action.id, action.node) {
        PendingStopKeepsSound(world, m, action.id, action.node);
      }
    } else if action.Prepare? {
      if m.flight.None? {
        PrepareBegins(world, m, action.id, action.node, action.attemptId, action.now);
        if HasStep(m.db.runs, action.id, action.node) && !UsedAttempt(m.db, action.attemptId) {
          PrepareKeepsSound(m, action.id, action.node, action.attemptId, action.now);
        }
      }
    } else if m.flight.Some? {
      AdvanceKeepsSound(world, m, m.flight.value, action);
    }
  }

  lemma {:induction false} RunsAreSound(world: World, actions: seq<Action>)
    ensures Sound(RunAll(world, actions))
  {
    if actions != [] {
      RunsAreSound(world, actions[..|actions| - 1]);
      ActionKeepsSound(world, RunAll(world, actions[..|actions| - 1]), actions[|actions| - 1]);
    }
  }
}
