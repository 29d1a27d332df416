/** The check that a JSON value is small enough to work on (packages/workload-plan/contracts.ts). */
module BoundedJson {
  import opened StableJson

  const MAX_JSON_DEPTH: nat := 16
  const MAX_JSON_NODES: nat := 10000

  /** The number of values in a value, itself included. */
  function Nodes(v: Json): nat
    decreases v, 1
  {
    match v
    case Array(items) => 1 + NodesOf(items)
    case Object(members) => 1 + NodesIn(members)
    case _ => 1
  }

  function NodesOf(items: seq<Json>): nat
    decreases items, 0
  {
    if items == [] then 0 else Nodes(items[0]) + NodesOf(items[1..])
  }

  function NodesIn(members: seq<Member>): nat
    decreases members, 0
  {
    if members == [] then 0
    else
      var m := members[0];
      assert m.value < m;
      Nodes(m.value) + NodesIn(members[1..])
  }

  function Max(a: nat, b: nat): nat {
    if a < b then b else a
  }

  /** How deeply arrays and objects are nested. */
  function Height(v: Json): nat
    decreases v, 1
  {
    match v
    case Array(items) => HeightOf(items)
    case Object(members) => HeightIn(members)
    case _ => 0
  }

  function HeightOf(items: seq<Json>): nat
    decreases items, 0
  {
    if items == [] then 0 else Max(1 + Height(items[0]), HeightOf(items[1..]))
  }

  function HeightIn(members: seq<Member>): nat
    decreases members, 0
  {
    if members == [] then 0
    else
      var m := members[0];
      assert m.value < m;
      Max(1 + Height(m.value), HeightIn(members[1..]))
  }

  /** Strings, arrays, objects and keys are short, everywhere. */
  predicate Short(v: Json) {
    match v
    case String(s) => |s| <= 4096
    case Array(items) => |items| <= 1000 && forall i :: 0 <= i < |items| ==> Short(items[i])
    case Object(members) => |members| <= 500 && forall i :: 0 <= i < |members| ==> |members[i].key| <= 128 && Short(members[i].value)
    case _ => true
  }

  /** The bounds a value is checked against, as counts over the whole value. */
  predicate Bounded(v: Json) {
    Short(v) && Height(v) <= MAX_JSON_DEPTH && Nodes(v) <= MAX_JSON_NODES
  }

  lemma {:induction false} PrefixOfItems(items: seq<Json>, i: nat)
    requires i < |items|
    ensures NodesOf(items[..i + 1]) == NodesOf(items[..i]) + Nodes(items[i])
    ensures HeightOf(items[..i + 1]) == Max(HeightOf(items[..i]), 1 + Height(items[i]))
    ensures NodesOf(items[..i + 1]) <= NodesOf(items) && HeightOf(items[..i + 1]) <= HeightOf(items)
  {
    assert items[..i + 1][1..] == items[1..][..i];
    if i > 0 {
      assert items[..i][1..] == items[1..][..i - 1];
      PrefixOfItems(items[1..], i - 1);
    }
  }

  lemma {:induction false} PrefixOfMembers(members: seq<Member>, i: nat)
    requires i < |members|
    ensures NodesIn(members[..i + 1]) == NodesIn(members[..i]) + Nodes(members[i].value)
    ensures HeightIn(members[..i + 1]) == Max(HeightIn(members[..i]), 1 + Height(members[i].value))
    ensures NodesIn(members[..i + 1]) <= NodesIn(members) && HeightIn(members[..i + 1]) <= HeightIn(members)
  {
    assert members[..i + 1][1..] == members[1..][..i];
    if i > 0 {
      assert members[..i][1..] == members[1..][..i - 1];
      PrefixOfMembers(members[1..], i - 1);
    }
  }

  /** The count of visited values, shared by the whole check. */
  class Budget {
    var nodes: nat

    constructor ()
      ensures nodes == 0
    {
      nodes := 0;
    }
  }

  method IsBoundedJson(v: Json, depth: nat, budget: Budget) returns (ok: bool)
    modifies budget
    ensures ok <==> Short(v) && depth + Height(v) <= MAX_JSON_DEPTH && old(budget.nodes) + Nodes(v) <= MAX_JSON_NODES
    ensures ok ==> budget.nodes == old(budget.nodes) + Nodes(v)
    decreases v, 1
  {
    budget.nodes := budget.nodes + 1;
    if budget.nodes > MAX_JSON_NODES || depth > MAX_JSON_DEPTH {
      return false;
    }
    match v {
      case String(s) => ok := |s| <= 4096;
      case Array(items) =>
        ok := |items| <= 1000;
        if ok {
          ok := AllBounded(items, depth, budget);
        }
      case Object(members) =>
        ok := |members| <= 500;
        if ok {
          ok := EveryEntryBounded(members, depth, budget);
        }
      case _ => ok := true;
    }
  }

  method AllBounded(items: seq<Json>, depth: nat, budget: Budget) returns (ok: bool)
    requires depth <= MAX_JSON_DEPTH && budget.nodes <= MAX_JSON_NODES
    modifies budget
    ensures ok <==> (forall i :: 0 <= i < |items| ==> Short(items[i])) && depth + HeightOf(items) <= MAX_JSON_DEPTH
                    && old(budget.nodes) + NodesOf(items) <= MAX_JSON_NODES
    ensures ok ==> budget.nodes == old(budget.nodes) + NodesOf(items)
    decreases items, 0
  {
    for i := 0 to |items|
      invariant forall j :: 0 <= j < i ==> Short(items[j])
      invariant depth + HeightOf(items[..i]) <= MAX_JSON_DEPTH
      invariant budget.nodes == old(budget.nodes) + NodesOf(items[..i]) <= MAX_JSON_NODES
    {
      PrefixOfItems(items, i);
      ok := IsBoundedJson(items[i], depth + 1, budget);
      if !ok {
        return;
      }
    }
    assert items[..|items|] == items;
    ok := true;
  }

  method EveryEntryBounded(members: seq<Member>, depth: nat, budget: Budget) returns (ok: bool)
    requires depth <= MAX_JSON_DEPTH && budget.nodes <= MAX_JSON_NODES
    modifies budget
    ensures ok <==> (forall i :: 0 <= i < |members| ==> |members[i].key| <= 128 && Short(members[i].value))
                    && depth + HeightIn(members) <= MAX_JSON_DEPTH && old(budget.nodes) + NodesIn(members) <= MAX_JSON_NODES
    ensures ok ==> budget.nodes == old(budget.nodes) + NodesIn(members)
    decreases members, 0
  {
    for i := 0 to |members|
      invariant forall j :: 0 <= j < i ==> |members[j].key| <= 128 && Short(members[j].value)
      invariant depth + HeightIn(members[..i]) <= MAX_JSON_DEPTH
      invariant budget.nodes == old(budget.nodes) + NodesIn(members[..i]) <= MAX_JSON_NODES
    {
      var m := members[i];
      assert m.value < m;
      PrefixOfMembers(members, i);
      ok := |m.key| <= 128;
      if ok {
        ok := IsBoundedJson(m.value, depth + 1, budget);
      }
      if !ok {
        return;
      }
    }
    assert members[..|members|] == members;
    ok := true;
  }

  /** The whole check, from a fresh budget. */
  method Check(v: Json) returns (ok: bool)
    ensures ok <==> Bounded(v)
  {
    var budget := new Budget();
    ok := IsBoundedJson(v, 0, budget);
  }
}
