/** Retried writes: receipts make every write take effect once (packages/pipeline-control/service.ts). */
module Replays {
  import opened Wrappers
  import opened PipelineModel
  import opened PipelineStore

  /** A request as it reaches the store; a retry may carry a new request id, clock and layout. */
  datatype Call = Call(r: Request, arranged: Document, now: nat)

  function Receipted(r: Request): ReceiptKey {
    ReceiptKey(r.actor, r.workspace, r.idempotencyKey)
  }

  /** The same write: one actor, workspace, idempotency key and input. */
  predicate SameWrite(a: Request, b: Request) {
    Receipted(a) == Receipted(b) && a.command == b.command
  }

  ghost function Answer(catalog: Catalog, limits: Limits, data: Database, c: Call): Outcome {
    Executed(catalog, limits, data, c.r, c.arranged, c.now)
  }

  ghost function Play(catalog: Catalog, limits: Limits, data: Database, calls: seq<Call>): Database
    decreases |calls|
  {
    if calls == [] then data else Play(catalog, limits, Answer(catalog, limits, data, calls[0]).data, calls[1..])
  }

  /** The store already answered this write. */
  predicate Answered(data: Database, r: Request) {
    Receipted(r) in data.receipts && data.receipts[Receipted(r)].command == r.command
  }

  /** The calls that are not retries of an answered write. */
  ghost function WithoutRetries(catalog: Catalog, limits: Limits, data: Database, calls: seq<Call>): seq<Call>
    decreases |calls|
  {
    if calls == [] then []
    else
      var rest := WithoutRetries(catalog, limits, Answer(catalog, limits, data, calls[0]).data, calls[1..]);
      if Answered(data, calls[0].r) then rest else [calls[0]] + rest
  }

  lemma OneAnswer(catalog: Catalog, limits: Limits, data: Database, c: Call)
    ensures var o := Answer(catalog, limits, data, c);
            && (o.result.Failure? ==> o.data == data)
            && (o.result.Success? ==> Answered(o.data, c.r) && o.data.receipts[Receipted(c.r)].result == o.result.value)
            && (Answered(data, c.r) ==> o == Outcome(data, Success(data.receipts[Receipted(c.r)].result)))
            && (forall k :: k in data.receipts ==> k in o.data.receipts && o.data.receipts[k] == data.receipts[k])
  {
  }

  lemma {:induction false} ReceiptsLast(catalog: Catalog, limits: Limits, data: Database, calls: seq<Call>, k: ReceiptKey)
    requires k in data.receipts
    ensures var after := Play(catalog, limits, data, calls);
            k in after.receipts && after.receipts[k] == data.receipts[k]
    decreases |calls|
  {
    if calls != [] {
      OneAnswer(catalog, limits, data, calls[0]);
      ReceiptsLast(catalog, limits, Answer(catalog, limits, data, calls[0]).data, calls[1..], k);
    }
  }

  lemma {:induction false} PlayAppends(catalog: Catalog, limits: Limits, data: Database, a: seq<Call>, b: seq<Call>)
    ensures Play(catalog, limits, data, a + b) == Play(catalog, limits, Play(catalog, limits, data, a), b)
    decreases |a|
  {
    if a == [] {
      assert a + b == b;
    } else {
      assert (a + b)[1..] == a[1..] + b;
      PlayAppends(catalog, limits, Answer(catalog, limits, data, a[0]).data, a[1..], b);
    }
  }

  /** A write that succeeded is answered with its first result ever after, whatever happened in between,
      and its retry leaves no mark on any later state. */
  lemma RetryIsTransparent(catalog: Catalog, limits: Limits, data: Database, before: seq<Call>, first: Call, between: seq<Call>,
                           retry: Call, after: seq<Call>)
    requires SameWrite(first.r, retry.r)
    requires Answer(catalog, limits, Play(catalog, limits, data, before), first).result.Success?
    ensures var prefix := before + [first] + between;
            var o := Answer(catalog, limits, Play(catalog, limits, data, prefix), retry);
            && o.result == Answer(catalog, limits, Play(catalog, limits, data, before), first).result
            && o.data == Play(catalog, limits, data, prefix)
            && Play(catalog, limits, data, prefix + [retry] + after) == Play(catalog, limits, data, prefix + after)
  {
    var start := Play(catalog, limits, data, before);
    var answered := Answer(catalog, limits, start, first).data;
    var prefix := before + [first] + between;
    OneAnswer(catalog, limits, start, first);
    ReceiptsLast(catalog, limits, answered, between, Receipted(first.r));
    PlayAppends(catalog, limits, data, before + [first], between);
    PlayAppends(catalog, limits, data, before, [first]);
    assert Play(catalog, limits, start, [first]) == answered;
    var reached := Play(catalog, limits, data, prefix);
    OneAnswer(catalog, limits, reached, retry);
    PlayAppends(catalog, limits, data, prefix + [retry], after);
    PlayAppends(catalog, limits, data, prefix, [retry]);
    PlayAppends(catalog, limits, data, prefix, after);
    assert Play(catalog, limits, reached, [retry]) == reached;
  }

  /** Dropping every retry from a trace leaves the same records, histories, redo stacks and receipts. */
  lemma {:induction false} RetriesLeaveNoTrace(catalog: Catalog, limits: Limits, data: Database, calls: seq<Call>)
    ensures Play(catalog, limits, data, calls) == Play(catalog, limits, data, WithoutRetries(catalog, limits, data, calls))
    decreases |calls|
  {
    if calls != [] {
      OneAnswer(catalog, limits, data, calls[0]);
      var next := Answer(catalog, limits, data, calls[0]).data;
      RetriesLeaveNoTrace(catalog, limits, next, calls[1..]);
      var rest := WithoutRetries(catalog, limits, next, calls[1..]);
      if !Answered(data, calls[0].r) {
        assert ([calls[0]] + rest)[1..] == rest;
      }
    }
  }
}
