/** The invariant of one run, and why no run deadlocks (packages/run-control/service.ts). */
module RunInvariants {
  import opened PipelineModel
  import opened Cycles
  import opened RunModel

  predicate InFlight(s: RunStep) {
    s.state in {Dispatching, Queued, Running, Unknown}
  }

  predicate StepOk(s: RunStep) {
    && (s.state.Pending? ==> s.attemptId.None?)
    && (InFlight(s) ==> s.attemptId.Some?)
    && (s.attemptId.Some? ==> s.generation > 0)
    && (s.state.Pending? || s.state.Dispatching? ==> s.change.None?)
    && s.retries <= 2
  }

  /** A step that was ever dispatched has succeeded predecessors, and its recorded inputs are their outputs. */
  predicate Fed(edges: seq<Edge>, steps: Steps, n: Id)
    requires n in steps
  {
    steps[n].generation > 0 ==> Ready(edges, steps, n) && steps[n].inputs == InputsOf(edges, steps, n)
  }

  ghost predicate GraphOk(g: Graph, steps: Steps) {
    !HasCycle(g.edges) && forall e :: e in g.edges ==> e.from.node in steps && e.to.node in steps
  }

  /** What holds even between a step update and the aggregation after it. */
  ghost predicate Base(run: Run) {
    && GraphOk(run.graph, run.steps)
    && (forall n :: n in run.steps ==> StepOk(run.steps[n]))
    && (forall n :: n in run.steps ==> Fed(run.graph.edges, run.steps, n))
  }

  /** No predecessor of `n` ended unsuccessfully. */
  predicate Unobstructed(edges: seq<Edge>, steps: Steps, n: Id) {
    forall e :: e in edges && e.to.node == n && e.from.node in steps ==> !Unsuccessful(steps[e.from.node])
  }

  /** A run that succeeded has only succeeded steps, a failed one has another. */
  predicate EndOk(run: Run) {
    && (run.state.RunSucceeded? ==> AllSucceeded(run.steps))
    && (run.state.RunFailed? ==> !AllSucceeded(run.steps))
  }

  predicate AllSucceeded(steps: Steps) {
    forall n :: n in steps ==> steps[n].state.Succeeded?
  }

  ghost predicate RunOk(run: Run) {
    && Base(run)
    && (TerminalRun(run.state) <==> AllTerminal(run.steps))
    && EndOk(run)
    && (!run.state.RunStopping? ==> forall n :: n in run.steps && run.steps[n].state.Pending? ==> Unobstructed(run.graph.edges, run.steps, n))
  }

  /* ---------- no run deadlocks ---------- */

  /** In flight, or ready to be dispatched. */
  predicate CanMove(run: Run, n: Id) {
    && n in run.steps
    && (InFlight(run.steps[n]) || (run.steps[n].state.Pending? && Ready(run.graph.edges, run.steps, n)))
  }

  lemma PendingPredecessor(run: Run, pending: set<Id>, n: Id)
    requires RunOk(run) && !run.state.RunStopping?
    requires forall m :: m in run.steps && !TerminalStep(run.steps[m]) ==> m in pending
    requires n in run.steps && run.steps[n].state.Pending? && !Ready(run.graph.edges, run.steps, n)
    ensures PredecessorIn(run.graph.edges, pending, n)
  {
    var e :| e in run.graph.edges && e.to.node == n && !(e.from.node in run.steps && run.steps[e.from.node].state.Succeeded?);
    assert Unobstructed(run.graph.edges, run.steps, n);
    assert e.from.node in pending;
  }

  /** If nothing could move, every unfinished step would wait for another unfinished one. */
  lemma StuckIsSourceFree(run: Run, pending: set<Id>)
    requires RunOk(run) && !run.state.RunStopping? && forall n :: !CanMove(run, n)
    requires pending == set n | n in run.steps && !TerminalStep(run.steps[n])
    ensures forall n :: n in pending ==> PredecessorIn(run.graph.edges, pending, n)
  {
    forall n | n in pending ensures PredecessorIn(run.graph.edges, pending, n) {
      assert !CanMove(run, n);
      PendingPredecessor(run, pending, n);
    }
  }

  /** An unfinished run that is not being stopped has a step in flight, or one that can be dispatched now. */
  lemma NoDeadlock(run: Run)
    requires RunOk(run) && !TerminalRun(run.state) && !run.state.RunStopping?
    ensures exists n :: CanMove(run, n)
  {
    if forall n :: !CanMove(run, n) {
      var pending := set n | n in run.steps && !TerminalStep(run.steps[n]);
      var first :| first in run.steps && !TerminalStep(run.steps[first]);
      assert first in pending;
      StuckIsSourceFree(run, pending);
      SourceFreeSetHasCycle(run.graph.edges, pending);
    }
  }

  /* ---------- how a step may change without being dispatched or resumed ---------- */

  predicate StepProgress(s: RunStep, t: RunStep) {
    && t.generation == s.generation && t.inputs == s.inputs
    && (t.attemptId == s.attemptId || t.attemptId.None?)
    && (t.state.Dispatching? ==> s.state.Dispatching?)
    && (s.state.Succeeded? ==> t.state.Succeeded? && t.outputs == s.outputs)
    && (TerminalStep(s) ==> t.state == s.state)
    && ((t.retries == s.retries && (t.state.Pending? ==> s.state.Pending?))
        || (t.retries == s.retries + 1 && !s.state.Pending? && t.attemptId.None?))
  }

  /** A run never leaves stopping except for stopped, and is stopped in no other way. */
  predicate StateProgress(a: RunState, b: RunState) {
    && (a.RunStopping? ==> b.RunStopping? || b.RunStopped?)
    && (b.RunStopped? ==> a.RunStopping? || a.RunStopped?)
  }

  ghost predicate Progress(a: Run, b: Run) {
    && b.id == a.id && b.graph == a.graph && b.steps.Keys == a.steps.Keys
    && StateProgress(a.state, b.state)
    && forall n :: n in a.steps ==> StepProgress(a.steps[n], b.steps[n])
  }

  /* ---------- replacing one step ---------- */

  lemma {:induction false} InputsUnaffected(edges: seq<Edge>, steps: Steps, n: Id, m: Id, s: RunStep)
    requires n in steps && m in steps && Ready(edges, steps, m)
    requires !steps[n].state.Succeeded? || s.outputs == steps[n].outputs
    ensures InputsOf(edges, steps[n := s], m) == InputsOf(edges, steps, m)
  {
    if edges != [] {
      var e := edges[|edges| - 1];
      InputsUnaffected(edges[..|edges| - 1], steps, n, m, s);
      if e.to.node == m {
        assert e in edges;
      }
    }
  }

  /** Replacing an unfinished step keeps every other step fed. */
  lemma StepReplaced(run: Run, n: Id, s: RunStep)
    requires Base(run) && n in run.steps && !run.steps[n].state.Succeeded?
    requires StepOk(s)
    requires s.generation > 0 ==> Ready(run.graph.edges, run.steps, n) && s.inputs == InputsOf(run.graph.edges, run.steps, n)
    ensures Base(SetStep(run, n, s))
  {
    var steps := run.steps[n := s];
    forall m | m in steps ensures Fed(run.graph.edges, steps, m) {
      if steps[m].generation > 0 {
        assert m != n ==> Fed(run.graph.edges, run.steps, m);
        InputsUnaffected(run.graph.edges, run.steps, n, m, s);
        forall e | e in run.graph.edges && e.to.node == m ensures e.from.node in steps && steps[e.from.node].state.Succeeded? {
          assert run.steps[e.from.node].state.Succeeded?;
        }
      }
    }
  }

  /** The common case: generation and inputs stay. */
  lemma StepMoved(run: Run, n: Id, s: RunStep)
    requires Base(run) && n in run.steps && !run.steps[n].state.Succeeded?
    requires StepOk(s) && StepProgress(run.steps[n], s)
    ensures Base(SetStep(run, n, s))
  {
    assert Fed(run.graph.edges, run.steps, n);
    StepReplaced(run, n, s);
  }

  /* ---------- aggregation ---------- */

  lemma WalkExtends(edges: seq<Edge>, steps: Steps, walk: seq<Id>, e: Edge)
    requires IsWalk(edges, walk) && e in edges && e.from.node == walk[|walk| - 1]
    requires walk[0] in steps && Unsuccessful(steps[walk[0]])
    requires forall k :: 0 < k < |walk| ==> walk[k] in steps && Waiting(steps[walk[k]])
    requires e.to.node in steps && Waiting(steps[e.to.node])
    ensures e.to.node in Blocked(edges, steps)
  {
    var longer := walk + [e.to.node];
    forall k | 0 <= k < |longer| - 1 ensures Linked(edges, longer[k], longer[k + 1]) {
      if k < |walk| - 1 {
        assert Linked(edges, walk[k], walk[k + 1]);
      }
    }
    assert BlockingWalk(edges, steps, longer) && longer[|longer| - 1] == e.to.node;
  }

  /** A waiting step with an unsuccessful or blocked predecessor is blocked. */
  lemma BlockedSpreads(edges: seq<Edge>, steps: Steps, e: Edge)
    requires e in edges && e.from.node in steps && e.to.node in steps
    requires Waiting(steps[e.to.node])
    requires Unsuccessful(steps[e.from.node]) || e.from.node in Blocked(edges, steps)
    ensures e.to.node in Blocked(edges, steps)
  {
    if Unsuccessful(steps[e.from.node]) {
      WalkExtends(edges, steps, [e.from.node], e);
    } else {
      var walk :| BlockingWalk(edges, steps, walk) && walk[|walk| - 1] == e.from.node;
      WalkExtends(edges, steps, walk, e);
    }
  }

  /** Only waiting steps with a predecessor that is unsuccessful or blocked are blocked. */
  lemma BlockedHasCause(edges: seq<Edge>, steps: Steps, n: Id)
    requires n in Blocked(edges, steps)
    ensures n in steps && Waiting(steps[n])
    ensures exists e :: e in edges && e.to.node == n && e.from.node in steps
              && (Unsuccessful(steps[e.from.node]) || Waiting(steps[e.from.node]))
  {
    var walk :| BlockingWalk(edges, steps, walk) && walk[|walk| - 1] == n;
    assert Linked(edges, walk[|walk| - 2], walk[|walk| - 2 + 1]);
    var e :| e in edges && e.from.node == walk[|walk| - 2] && e.to.node == n;
  }

  /** Aggregation touches only waiting steps, and only to stop them. */
  predicate OnlyBlocked(s: RunStep, t: RunStep) {
    t == s || (Waiting(s) && t.state.Stopped?)
  }

  lemma OnlyWaitingIsBlocked(run: Run)
    ensures forall n :: n in Blocked(run.graph.edges, run.steps) ==> n in run.steps && Waiting(run.steps[n])
  {
    forall n | n in Blocked(run.graph.edges, run.steps) ensures n in run.steps && Waiting(run.steps[n]) {
      BlockedHasCause(run.graph.edges, run.steps, n);
    }
  }

  lemma StopsOnlyBlocked(steps: Steps, blocked: set<Id>, n: Id)
    requires n in steps && forall m :: m in blocked ==> m in steps && Waiting(steps[m])
    ensures OnlyBlocked(steps[n], StopSteps(steps, blocked)[n]) && StepProgress(steps[n], StopSteps(steps, blocked)[n])
  {
  }

  lemma AggregateProgress(run: Run)
    requires Base(run)
    ensures Progress(run, Aggregated(run))
    ensures Aggregated(run).revision == run.revision
    ensures forall n :: n in run.steps ==> OnlyBlocked(run.steps[n], Aggregated(run).steps[n])
  {
    var blocked := Blocked(run.graph.edges, run.steps);
    OnlyWaitingIsBlocked(run);
    forall n | n in run.steps
      ensures OnlyBlocked(run.steps[n], StopSteps(run.steps, blocked)[n]) && StepProgress(run.steps[n], StopSteps(run.steps, blocked)[n])
    {
      StopsOnlyBlocked(run.steps, blocked, n);
    }
  }

  lemma {:induction false} InputsAfterStop(edges: seq<Edge>, steps: Steps, blocked: set<Id>, n: Id)
    ensures InputsOf(edges, StopSteps(steps, blocked), n) == InputsOf(edges, steps, n)
  {
    if edges != [] {
      InputsAfterStop(edges[..|edges| - 1], steps, blocked, n);
    }
  }

  lemma AggregateKeepsBase(run: Run)
    requires Base(run)
    ensures Base(Aggregated(run))
  {
    AggregateProgress(run);
    if !run.state.RunStopping? {
      var blocked := Blocked(run.graph.edges, run.steps);
      var steps := StopSteps(run.steps, blocked);
      forall n | n in blocked ensures Waiting(run.steps[n]) {
        BlockedHasCause(run.graph.edges, run.steps, n);
      }
      forall n | n in steps ensures StepOk(steps[n]) && Fed(run.graph.edges, steps, n) {
        assert StepOk(run.steps[n]) && Fed(run.graph.edges, run.steps, n);
        InputsAfterStop(run.graph.edges, run.steps, blocked, n);
      }
    }
  }

  /** Aggregation restores the invariant after any sound step update. */
  lemma AggregateRestores(run: Run)
    requires Base(run)
    ensures RunOk(Aggregated(run))
  {
    AggregateKeepsBase(run);
    if !run.state.RunStopping? {
      var edges, blocked := run.graph.edges, Blocked(run.graph.edges, run.steps);
      var steps := StopSteps(run.steps, blocked);
      forall n | n in steps && steps[n].state.Pending? ensures Unobstructed(edges, steps, n) {
        forall e | e in edges && e.to.node == n && e.from.node in steps ensures !Unsuccessful(steps[e.from.node]) {
          if Unsuccessful(steps[e.from.node]) {
            assert StepOk(run.steps[n]);
            BlockedSpreads(edges, run.steps, e);
          }
        }
      }
      SummaryIsTerminal(steps);
    }
  }

  lemma SummaryIsTerminal(steps: Steps)
    ensures TerminalRun(Summary(steps)) <==> AllTerminal(steps)
    ensures !Summary(steps).RunStopping? && !Summary(steps).RunStopped?
    ensures Summary(steps).RunSucceeded? ==> AllSucceeded(steps)
    ensures Summary(steps).RunFailed? ==> !AllSucceeded(steps)
  {
  }

  /** A sound step update followed by aggregation, seen as one transition. */
  lemma UpdateThenAggregate(run: Run, n: Id, s: RunStep, revision: nat)
    requires Base(run) && n in run.steps && !TerminalStep(run.steps[n])
    requires StepOk(s) && StepProgress(run.steps[n], s)
    ensures var updated := SetStep(run, n, s).(revision := revision);
            RunOk(Aggregated(updated)) && Progress(run, Aggregated(updated)) && Aggregated(updated).revision == revision
  {
    var updated := SetStep(run, n, s).(revision := revision);
    StepMoved(run, n, s);
    assert Base(updated);
    AggregateRestores(updated);
    AggregateProgress(updated);
    ThenAggregate(run, updated, Aggregated(updated), n);
  }

  lemma ThenAggregate(run: Run, updated: Run, next: Run, n: Id)
    requires n in run.steps && n in updated.steps && updated.steps == run.steps[n := updated.steps[n]]
    requires StepProgress(run.steps[n], updated.steps[n]) && !TerminalStep(run.steps[n])
    requires updated.id == run.id && updated.graph == run.graph && updated.state == run.state
    requires Progress(updated, next)
    requires forall m :: m in updated.steps ==> OnlyBlocked(updated.steps[m], next.steps[m])
    ensures Progress(run, next)
  {
    forall m | m in run.steps ensures StepProgress(run.steps[m], next.steps[m]) {
      assert OnlyBlocked(updated.steps[m], next.steps[m]);
    }
  }

  /** A step update without aggregation: the step stays unfinished. */
  lemma UpdateUnfinished(run: Run, n: Id, s: RunStep, state: RunState, revision: nat)
    requires RunOk(run) && n in run.steps && !TerminalStep(run.steps[n])
    requires StepOk(s) && StepProgress(run.steps[n], s) && !TerminalStep(s)
    requires s.state.Pending? ==> run.steps[n].state.Pending?
    requires !TerminalRun(state) && (run.state.RunStopping? <==> state.RunStopping?)
    ensures var updated := SetStep(run, n, s).(state := state, revision := revision);
            RunOk(updated) && Progress(run, updated)
  {
    var updated := SetStep(run, n, s).(state := state, revision := revision);
    StepMoved(run, n, s);
    assert !TerminalStep(updated.steps[n]);
    forall m | m in updated.steps && updated.steps[m].state.Pending? && !state.RunStopping?
      ensures Unobstructed(run.graph.edges, updated.steps, m)
    {
      assert Unobstructed(run.graph.edges, run.steps, m);
    }
  }
}
