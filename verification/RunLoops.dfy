/** The loops of the run service (packages/run-control/service.ts). */
module RunLoops {
  import opened Wrappers
  import opened PipelineModel
  import opened Cycles
  import opened RunModel
  import opened RunInvariants
  import RunOutcomes
  import RunTransitions

  /* ---------- aggregation ---------- */

  predicate HasFailedPredecessor(edges: seq<Edge>, steps: Steps, n: Id) {
    exists e :: e in edges && e.to.node == n && e.from.node in steps && Unsuccessful(steps[e.from.node])
  }

  /** No waiting step outside `done` has a failed predecessor once `done` is stopped. */
  ghost predicate ClosedStop(edges: seq<Edge>, steps: Steps, done: set<Id>) {
    forall n :: n in steps && Waiting(steps[n]) && n !in done ==> !HasFailedPredecessor(edges, StopSteps(steps, done), n)
  }

  lemma {:induction false} ClosedReaches(edges: seq<Edge>, steps: Steps, done: set<Id>, walk: seq<Id>)
    requires BlockingWalk(edges, steps, walk) && ClosedStop(edges, steps, done)
    ensures walk[|walk| - 1] in done
  {
    var last := |walk| - 1;
    assert Linked(edges, walk[last - 1], walk[last - 1 + 1]);
    var e :| e in edges && e.from.node == walk[last - 1] && e.to.node == walk[last];
    if last > 1 {
      SubWalk(edges, walk, 0, last);
      ClosedReaches(edges, steps, done, walk[..last]);
    }
    assert Unsuccessful(StopSteps(steps, done)[e.from.node]);
  }

  lemma ClosedIsBlocked(edges: seq<Edge>, steps: Steps, done: set<Id>)
    requires done <= Blocked(edges, steps) && ClosedStop(edges, steps, done)
    ensures done == Blocked(edges, steps)
  {
    forall n | n in Blocked(edges, steps) ensures n in done {
      var walk :| BlockingWalk(edges, steps, walk) && walk[|walk| - 1] == n;
      ClosedReaches(edges, steps, done, walk);
    }
  }

  lemma OneMoreBlocked(edges: seq<Edge>, steps: Steps, done: set<Id>, n: Id)
    requires done <= Blocked(edges, steps) && n in steps && Waiting(steps[n])
    requires HasFailedPredecessor(edges, StopSteps(steps, done), n)
    ensures n in Blocked(edges, steps)
  {
    var e :| e in edges && e.to.node == n && e.from.node in steps && Unsuccessful(StopSteps(steps, done)[e.from.node]);
    BlockedSpreads(edges, steps, e);
  }

  /** One sweep over the waiting steps: it stops some blocked ones, or finds that none is left. */
  method Sweep(edges: seq<Edge>, steps: Steps, ghost start: Steps, ghost before: set<Id>)
    returns (next: Steps, ghost done: set<Id>, changed: bool)
    requires before <= Blocked(edges, start) && steps == StopSteps(start, before)
    ensures before <= done <= Blocked(edges, start) && next == StopSteps(start, done)
    ensures changed <==> before < done
    ensures !changed ==> done == before && ClosedStop(edges, start, done)
  {
    next, done, changed := steps, before, false;
    var todo := set n | n in steps && Waiting(steps[n]);
    ghost var seen: set<Id> := {};
    while todo != {}
      invariant before <= done <= Blocked(edges, start) && next == StopSteps(start, done)
      invariant changed <==> before < done
      invariant forall n :: n in todo ==> n in start && Waiting(start[n]) && n !in done
      invariant forall n :: n in start && Waiting(start[n]) && n !in before ==> n in todo || n in seen
      invariant !changed ==> forall n :: n in seen ==> !HasFailedPredecessor(edges, StopSteps(start, before), n)
      decreases todo
    {
      var n :| n in todo;
      todo, seen := todo - {n}, seen + {n};
      if HasFailedPredecessor(edges, next, n) {
        OneMoreBlocked(edges, start, done, n);
        next := next[n := next[n].(state := Stopped, message := Some(UpstreamFailed))];
        done, changed := done + {n}, true;
      }
    }
  }

  /** The steps after stopping, sweep by sweep, everything that can never start. */
  method StopBlocked(edges: seq<Edge>, steps: Steps) returns (next: Steps)
    ensures next == StopSteps(steps, Blocked(edges, steps))
  {
    next := steps;
    ghost var blocked := Blocked(edges, steps);
    ghost var done: set<Id> := {};
    var changed := true;
    while changed
      invariant done <= blocked && next == StopSteps(steps, done)
      invariant !changed ==> ClosedStop(edges, steps, done)
      decreases |blocked - done|, changed
    {
      ghost var before := done;
      next, done, changed := Sweep(edges, next, steps, done);
      if changed {
        Shrinks(blocked, before, done);
      }
    }
    ClosedIsBlocked(edges, steps, done);
  }

  lemma Shrinks(all: set<Id>, before: set<Id>, done: set<Id>)
    requires before < done <= all
    ensures |all - done| < |all - before|
  {
    var n :| n in done && n !in before;
    assert all - done < all - before;
    SmallerSet(all - done, all - before);
  }

  lemma SmallerSet(a: set<Id>, b: set<Id>)
    requires a < b
    ensures |a| < |b|
  {
    assert b == a + (b - a);
  }

  method Aggregate(run: Run) returns (next: Run)
    ensures next == Aggregated(run)
    ensures RunOutcomes.StateTells(next, run.state.RunStopping?)
  {
    RunOutcomes.AggregatedTells(run);
    if run.state.RunStopping? {
      next := if AllTerminal(run.steps) then run.(state := RunStopped) else run;
    } else {
      var steps := StopBlocked(run.graph.edges, run.steps);
      next := run.(steps := steps, state := Summary(steps));
    }
  }

  /* ---------- previewing a change ---------- */

  lemma AffectedIsDownstream(edges: seq<Edge>, n: Id, affected: set<Id>)
    requires n in affected && forall m :: m in affected ==> m in Downstream(edges, n)
    requires forall e :: e in edges && e.from.node in affected ==> e.to.node in affected
    ensures affected == Downstream(edges, n)
  {
    forall m | m in Downstream(edges, n) ensures m in affected {
      RunTransitions.DownstreamIsReachable(edges, n, m);
      var walk :| IsWalk(edges, walk) && walk[0] == n && walk[|walk| - 1] == m;
      ClosedUnderWalks(edges, affected, walk);
    }
  }

  lemma NextIsDownstream(edges: seq<Edge>, n: Id, e: Edge)
    requires e in edges && e.from.node in Downstream(edges, n)
    ensures e.to.node in Downstream(edges, n)
  {
    RunTransitions.DownstreamIsReachable(edges, n, e.from.node);
    ReachesNext(edges, n, e);
    RunTransitions.DownstreamIsReachable(edges, n, e.to.node);
  }

  /** One pass over the edges: it follows some that leave the set, or finds that none does. */
  method Follow(edges: seq<Edge>, n: Id, before: set<Id>) returns (affected: set<Id>, changed: bool)
    requires before <= Downstream(edges, n)
    ensures before <= affected <= Downstream(edges, n)
    ensures changed <==> before < affected
    ensures !changed ==> affected == before && forall e :: e in edges && e.from.node in affected ==> e.to.node in affected
  {
    affected, changed := before, false;
    for i := 0 to |edges|
      invariant before <= affected <= Downstream(edges, n)
      invariant changed <==> before < affected
      invariant !changed ==> forall k :: 0 <= k < i && edges[k].from.node in affected ==> edges[k].to.node in affected
    {
      var e := edges[i];
      if e.from.node in affected && e.to.node !in affected {
        NextIsDownstream(edges, n, e);
        affected, changed := affected + {e.to.node}, true;
      }
    }
  }

  /** Repeats until no edge leaves the set: it then holds exactly what the node leads to. */
  method Affected(edges: seq<Edge>, n: Id) returns (affected: set<Id>)
    ensures affected == Downstream(edges, n)
  {
    affected := {n};
    var changed := true;
    while changed
      invariant n in affected && affected <= Downstream(edges, n)
      invariant !changed ==> forall e :: e in edges && e.from.node in affected ==> e.to.node in affected
      decreases |Downstream(edges, n) - affected|, changed
    {
      ghost var before := affected;
      affected, changed := Follow(edges, n, affected);
      if changed {
        Shrinks(Downstream(edges, n), before, affected);
      }
    }
    AffectedIsDownstream(edges, n, affected);
  }

  method PreviewChange(world: World, run: Run, expectedRevision: nat, n: Id, config: Config) returns (r: Result<Preview, PreviewError>)
    ensures r == Previewed(world, run, expectedRevision, n, config)
  {
    if run.revision != expectedRevision {
      return Failure(StaleRevision);
    }
    var node := FindNode(run.graph.nodes, n);
    if node.None? || n !in run.steps {
      return Failure(NoSuchNode);
    }
    var definition := Lookup(world.catalog, node.value.kind);
    if definition.None? {
      return Failure(NoSuchType);
    }
    if !definition.value.accepts(config) {
      return Failure(BadChange);
    }
    var affected := Affected(run.graph.edges, n);
    if Reference(world.catalog, node.value) {
      return Success(Preview(run.id, run.revision, n, config, Refused, affected, {}));
    }
    r := Success(Preview(run.id, run.revision, n, config, ModeOf(run, n, config, affected), affected, ReusableSteps(run, affected)));
  }

  /* ---------- loops over steps, edges and attempts ---------- */

  method CollectInputs(edges: seq<Edge>, steps: Steps, n: Id) returns (inputs: Outputs)
    ensures inputs == InputsOf(edges, steps, n)
  {
    inputs := map[];
    for i := 0 to |edges|
      invariant inputs == InputsOf(edges[..i], steps, n)
    {
      var e := edges[i];
      assert edges[..i + 1][..i] == edges[..i];
      if e.to.node == n && e.from.node in steps && e.from.port in steps[e.from.node].outputs {
        inputs := inputs[e.to.port := steps[e.from.node].outputs[e.from.port]];
      }
    }
    assert edges[..|edges|] == edges;
  }

  method ResumeSteps(steps: Steps) returns (next: Steps)
    ensures next == map n | n in steps :: ResumedStep(steps[n])
  {
    next := steps;
    var todo := set n | n in steps && !steps[n].state.Succeeded?;
    while todo != {}
      invariant todo <= steps.Keys && next.Keys == steps.Keys
      invariant forall n :: n in steps ==> next[n] == if n in todo then steps[n] else ResumedStep(steps[n])
    {
      var n :| n in todo;
      todo, next := todo - {n}, next[n := ResumedStep(steps[n])];
    }
  }

  method ClearPolls(steps: Steps) returns (next: Steps)
    ensures next == map n | n in steps :: steps[n].(nextPollAt := None, pollFailures := None)
  {
    next := steps;
    var todo := steps.Keys;
    while todo != {}
      invariant todo <= steps.Keys && next.Keys == steps.Keys
      invariant forall n :: n in steps ==> next[n] == if n in todo then steps[n] else steps[n].(nextPollAt := None, pollFailures := None)
    {
      var n :| n in todo;
      todo, next := todo - {n}, next[n := steps[n].(nextPollAt := None, pollFailures := None)];
    }
  }

  lemma {:induction false} ObservationAt(attempts: seq<Attempt>, i: nat, attemptId: Id, o: Observation)
    requires i <= |attempts| && forall j :: 0 <= j < i ==> attempts[j].attemptId != attemptId
    requires i < |attempts| ==> attempts[i].attemptId == attemptId
    ensures WithObservation(attempts, attemptId, o)
            == if i < |attempts| then attempts[i := attempts[i].(observation := Some(o))] else attempts
  {
    if i > 0 {
      ObservationAt(attempts[1..], i - 1, attemptId, o);
    }
  }

  method RecordObservation(attempts: seq<Attempt>, attemptId: Id, o: Observation) returns (next: seq<Attempt>)
    ensures next == WithObservation(attempts, attemptId, o)
  {
    var i := 0;
    while i < |attempts| && attempts[i].attemptId != attemptId
      invariant i <= |attempts| && forall j :: 0 <= j < i ==> attempts[j].attemptId != attemptId
    {
      i := i + 1;
    }
    ObservationAt(attempts, i, attemptId, o);
    next := if i < |attempts| then attempts[i := attempts[i].(observation := Some(o))] else attempts;
  }

}
