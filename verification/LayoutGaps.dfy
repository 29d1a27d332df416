/** The distance a layout keeps between a moved node and a fixed node as it is drawn
    (packages/pipeline-control/layout.ts, packages/pipeline-model/geometry.ts). */
module LayoutGaps {
  import opened Wrappers
  import opened PipelineModel
  import opened Inspection
  import opened Arrangement

  /* ---------- whole coordinates ---------- */

  function Units(k: int): real {
    k as real
  }

  ghost predicate Whole(v: real) {
    exists k :: Units(k) == v
  }

  lemma WholeSum(a: real, b: real)
    requires Whole(a) && Whole(b)
    ensures Whole(a + b) && Whole(a - b)
  {
    var i :| Units(i) == a;
    var j :| Units(j) == b;
    assert Units(i + j) == a + b && Units(i - j) == a - b;
  }

  lemma RoundWhole(v: real)
    requires Whole(v)
    ensures Round(v) == v
  {
    var k :| Units(k) == v;
    assert (v + 0.5).Floor == k;
  }

  ghost predicate WholeInput(engine: Engine, d: Document) {
    && (forall id :: id in d.layout ==> Whole(d.layout[id].x) && Whole(d.layout[id].y))
    && (forall n :: n in d.graph.nodes ==> Whole(engine.origin(n.id).0) && Whole(engine.origin(n.id).1))
  }

  lemma {:induction false} LeastIsOne(values: seq<real>)
    requires values != []
    ensures Least(values) in values
  {
    if |values| > 1 {
      LeastIsOne(values[1..]);
    }
  }

  lemma AnchorIsWhole(engine: Engine, d: Document, scope: Option<seq<Id>>)
    requires WholeInput(engine, d) && Moving(d, scope) != []
    ensures Whole(AnchorX(d, scope)) && Whole(AnchorY(d, scope))
  {
    assert Units(40) == 40.0 && Units(80) == 80.0;
    LeastIsOne(MovingXs(d, scope));
    LeastIsOne(MovingYs(d, scope));
    forall i | 0 <= i < |Moving(d, scope)| ensures Whole(MovingXs(d, scope)[i]) && Whole(MovingYs(d, scope)[i]) {
      assert Moving(d, scope)[i] in Moving(d, scope);
    }
  }

  lemma SizeIsWhole(ports: Option<nat>)
    ensures Whole(NodeSize(ports).0) && Whole(NodeSize(ports).1) && NodeSize(ports).1 >= 96.0
  {
    assert Units(240) == 240.0 && Units(180) == 180.0 && Units(96) == 96.0;
    if ports.Some? {
      assert Units(35 + ports.value * 26) == (35 + ports.value * 26) as real;
    }
  }

  /** Everything the shift is made of. */
  lemma ShiftBelowIsWhole(catalog: Catalog, engine: Engine, m: Node, p: Position, f: Node, y: real)
    requires Whole(engine.origin(m.id).1) && Whole(p.y) && Whole(y)
    ensures Whole(ShiftBelow(ChildOf(catalog, engine, m), BoxAt(p, ActiveSize(engine, f)), y))
  {
    assert Units(30) == 30.0;
    SizeIsWhole(engine.activePorts(f.kind.name));
    WholeSum(p.y, ActiveSize(engine, f).1);
    WholeSum(p.y + ActiveSize(engine, f).1, GAP);
    WholeSum(y, engine.origin(m.id).1);
    WholeSum(y + engine.origin(m.id).1, TITLE_HEIGHT);
    WholeSum(p.y + ActiveSize(engine, f).1 + GAP, y + engine.origin(m.id).1 - TITLE_HEIGHT);
  }

  lemma ShiftIsWhole(catalog: Catalog, engine: Engine, d: Document, scope: Option<seq<Id>>, y: real, shift: real)
    requires Acceptable(catalog, d) && WholeInput(engine, d) && Whole(y)
    requires Landed(Children(catalog, engine, d, scope), Obstacles(engine, d, scope), y, shift)
    ensures Whole(shift)
  {
    var children, boxes := Children(catalog, engine, d, scope), Obstacles(engine, d, scope);
    forall i, j | 0 <= i < |children| && 0 <= j < |boxes| ensures Whole(ShiftBelow(children[i], boxes[j], y)) {
      PairIsWhole(catalog, engine, d, scope, y, i, j);
    }
    LandedIsWhole(children, boxes, y, shift);
  }

  lemma LandedIsWhole(children: seq<Child>, boxes: seq<Box>, y: real, shift: real)
    requires Landed(children, boxes, y, shift)
    requires forall i, j :: 0 <= i < |children| && 0 <= j < |boxes| ==> Whole(ShiftBelow(children[i], boxes[j], y))
    ensures Whole(shift)
  {
    assert Units(0) == 0.0;
    if shift != 0.0 {
      var c, b :| c in children && b in boxes && ShiftBelow(c, b, y) == shift;
      var i :| 0 <= i < |children| && children[i] == c;
      var j :| 0 <= j < |boxes| && boxes[j] == b;
    }
  }

  lemma PairIsWhole(catalog: Catalog, engine: Engine, d: Document, scope: Option<seq<Id>>, y: real, i: nat, j: nat)
    requires Acceptable(catalog, d) && WholeInput(engine, d) && Whole(y)
    requires i < |Children(catalog, engine, d, scope)| && j < |Obstacles(engine, d, scope)|
    ensures Whole(ShiftBelow(Children(catalog, engine, d, scope)[i], Obstacles(engine, d, scope)[j], y))
  {
    var m, f := Moving(d, scope)[i], Fixed(d, scope)[j];
    assert m in d.graph.nodes && f in d.graph.nodes;
    assert f.id in NodeIds(d.graph.nodes);
    ShiftBelowIsWhole(catalog, engine, m, d.layout[f.id], f, y);
  }

  lemma WholeSettles(p: Position, catalog: Catalog, engine: Engine, m: Node, x: real, y: real, shift: real)
    requires Whole(engine.origin(m.id).0) && Whole(engine.origin(m.id).1) && Whole(x) && Whole(y) && Whole(shift)
    ensures BoxAt(Settle(p, ChildOf(catalog, engine, m), x, y, shift), Size(catalog, m)) == BoxOf(ChildOf(catalog, engine, m), x, y, shift)
  {
    WholeSum(x, engine.origin(m.id).0);
    WholeSum(y, engine.origin(m.id).1);
    WholeSum(y + engine.origin(m.id).1, shift);
    RoundWhole(x + engine.origin(m.id).0);
    RoundWhole(y + engine.origin(m.id).1 + shift);
  }

  /* ---------- what every layout keeps ---------- */

  /** The full gap survives rounding when the stored positions and the engine's origins are whole numbers. */
  lemma WholeInputKeepsTheGap(catalog: Catalog, engine: Engine, d: Document, scope: Option<seq<Id>>, result: Document, m: Node, f: Node)
    requires Acceptable(catalog, d) && Arranged(catalog, engine, d, scope, result) && WholeInput(engine, d)
    requires m in d.graph.nodes && Moves(d, scope, m) && f in d.graph.nodes && !Moves(d, scope, f) && f.id in d.layout
    ensures !Near(BoxAt(result.layout[m.id], Size(catalog, m)), BoxAt(d.layout[f.id], ActiveSize(engine, f)), GAP)
  {
    var moving, fixed := Moving(d, scope), Fixed(d, scope);
    assert m in moving && f in fixed;
    var x, y := AnchorX(d, scope), AnchorY(d, scope);
    var children, boxes := Children(catalog, engine, d, scope), Obstacles(engine, d, scope);
    var shift :| LeastClear(children, boxes, x, y, shift) && Translated(catalog, engine, d, scope, result, x, y, shift);
    AnchorIsWhole(engine, d, scope);
    ShiftIsWhole(catalog, engine, d, scope, y, shift);
    WholeSettles(d.layout[m.id], catalog, engine, m, x, y, shift);
    var i :| 0 <= i < |moving| && moving[i] == m;
    var j :| 0 <= j < |fixed| && fixed[j] == f;
    assert children[i] in children && boxes[j] in boxes;
  }

  /** The gap left by rounding. */
  function Kept(whole: bool): real {
    if whole then GAP else GAP - 0.5
  }

  /** How much taller a node is drawn than it is avoided with. */
  function Excess(catalog: Catalog, f: Node, activePorts: Option<nat>): real {
    var drawn, avoided := Size(catalog, f).1, NodeSize(activePorts).1;
    if drawn > avoided then drawn - avoided else 0.0
  }

  /** A layout that was carried out, with a node it moved and a node it kept. */
  ghost predicate Situation(catalog: Catalog, engine: Engine, d: Document, scope: Option<seq<Id>>, result: Document, m: Node, f: Node,
                            activePorts: Option<nat>, whole: bool) {
    && Acceptable(catalog, d) && Arranged(catalog, engine, d, scope, result) && Acceptable(catalog, result)
    && m in d.graph.nodes && Moves(d, scope, m) && f in d.graph.nodes && !Moves(d, scope, f) && f.id in d.layout
    && engine.activePorts(f.kind.name) == activePorts
    && (whole ==> WholeInput(engine, d))
  }

  /** No layout brings a moved node closer to this fixed node, as it is drawn, than the distance. */
  ghost predicate KeepsApart(catalog: Catalog, f: Node, activePorts: Option<nat>, whole: bool, distance: real) {
    forall engine, d, scope, result, m :: Situation(catalog, engine, d, scope, result, m, f, activePorts, whole) ==>
      !Near(BoxAt(result.layout[m.id], Size(catalog, m)), BoxAt(d.layout[f.id], Size(catalog, f)), distance)
  }

  lemma AvoidedMeansDrawn(a: Box, p: Position, avoided: real, drawn: real, kept: real, distance: real)
    requires !Near(a, BoxAt(p, (240.0, avoided)), kept)
    requires distance <= kept && distance + drawn - avoided <= kept
    ensures !Near(a, BoxAt(p, (240.0, drawn)), distance)
  {
  }

  lemma GapIsKept(catalog: Catalog, f: Node, activePorts: Option<nat>, whole: bool, distance: real)
    requires distance + Excess(catalog, f, activePorts) <= Kept(whole)
    ensures KeepsApart(catalog, f, activePorts, whole, distance)
  {
    forall engine, d, scope, result, m | Situation(catalog, engine, d, scope, result, m, f, activePorts, whole)
      ensures !Near(BoxAt(result.layout[m.id], Size(catalog, m)), BoxAt(d.layout[f.id], Size(catalog, f)), distance)
    {
      if whole {
        WholeInputKeepsTheGap(catalog, engine, d, scope, result, m, f);
      }
      AvoidedMeansDrawn(BoxAt(result.layout[m.id], Size(catalog, m)), d.layout[f.id], ActiveSize(engine, f).1, Size(catalog, f).1, Kept(whole), distance);
    }
  }

  /* ---------- layouts that keep no more ---------- */

  /** A second node of the same type. */
  function Twin(f: Node): Node {
    f.(id := Id(f.id.text + "'"))
  }

  /** A pinned node and its twin. */
  function Pair(f: Node, at: Position, x: real, y: real): Document {
    Document(Graph(Id("p"), PipelineV2, "draft", [Twin(f), f], []), map[Twin(f).id := Position(x, y, None), f.id := at.(pinned := Some(true))])
  }

  lemma TwinIsOther(f: Node)
    ensures Twin(f).id != f.id
  {
    assert |Twin(f).id.text| == |f.id.text| + 1;
  }

  lemma TwinIsTolerable(catalog: Catalog, f: Node)
    requires NodeTolerable(PipelineV2, catalog, f)
    ensures NodeTolerable(PipelineV2, catalog, Twin(f))
  {
    forall x | x in NodeChecks(catalog, Twin(f)) ensures TolerableFor(PipelineV2, x.code, f.snapshot) {
      assert Issue(x.code, Some(f.id)) in NodeChecks(catalog, f);
    }
  }

  lemma PairIsAcceptable(catalog: Catalog, f: Node, at: Position, x: real, y: real)
    requires NodeTolerable(PipelineV2, catalog, f) && InRange(at) && InRange(Position(x, y, None))
    ensures Acceptable(catalog, Pair(f, at, x, y))
  {
    TwinIsOther(f);
    TwinIsTolerable(catalog, f);
    assert !Blank("draft") by {
      assert "draft"[0] == 'd' && "draft"[0] in "draft";
    }
  }

  /** The engine leaves its only node at its origin. */
  function Still(activePorts: Option<nat>): Engine {
    Engine(id => (0.0, 0.0), kind => activePorts)
  }

  lemma PairMoves(f: Node, at: Position, x: real, y: real)
    ensures var d := Pair(f, at, x, y);
            Moving(d, None) == [Twin(f)] && Fixed(d, None) == [f] && AnchorX(d, None) == x && AnchorY(d, None) == y
  {
    TwinIsOther(f);
    var d := Pair(f, at, x, y);
    var nodes := d.graph.nodes;
    assert nodes[1..] == [f] && [f][1..] == [];
    assert Moves(d, None, Twin(f)) && !Moves(d, None, f);
    assert Those(d, None, [], true) == Those(d, None, [], false) == [];
    assert Those(d, None, [f], true) == [] && Those(d, None, [f], false) == [f];
  }

  lemma PairSettles(catalog: Catalog, f: Node, activePorts: Option<nat>, at: Position, x: real, y: real)
    requires !Near(BoxAt(Position(x, y, None), Size(catalog, f)), BoxAt(at, NodeSize(activePorts)), GAP)
    ensures Arranged(catalog, Still(activePorts), Pair(f, at, x, y), None, Pair(f, at, Round(x), Round(y)))
  {
    var d, result, engine := Pair(f, at, x, y), Pair(f, at, Round(x), Round(y)), Still(activePorts);
    PairMoves(f, at, x, y);
    TwinIsOther(f);
    var children, boxes := Children(catalog, engine, d, None), Obstacles(engine, d, None);
    assert children == [ChildOf(catalog, engine, Twin(f))];
    assert boxes == [BoxAt(d.layout[f.id], NodeSize(activePorts))];
    assert LeastClear(children, boxes, x, y, 0.0);
    assert Translated(catalog, engine, d, None, result, x, y, 0.0);
    RoundingKeepsDistance(d.layout[Twin(f).id], Twin(f), catalog, engine, x, y, 0.0, boxes[0]);
  }

  /** Two nodes that were apart before rounding and are closer, as drawn, after it. */
  lemma NotApart(catalog: Catalog, f: Node, activePorts: Option<nat>, whole: bool, distance: real, at: Position, x: real, y: real)
    requires NodeTolerable(PipelineV2, catalog, f) && InRange(at) && InRange(Position(x, y, None)) && InRange(Position(Round(x), Round(y), None))
    requires whole ==> Whole(x) && Whole(y) && Whole(at.x) && Whole(at.y)
    requires !Near(BoxAt(Position(x, y, None), Size(catalog, f)), BoxAt(at, NodeSize(activePorts)), GAP)
    requires Near(BoxAt(Position(Round(x), Round(y), None), Size(catalog, f)), BoxAt(at, Size(catalog, f)), distance)
    ensures !KeepsApart(catalog, f, activePorts, whole, distance)
  {
    var d, result := Pair(f, at, x, y), Pair(f, at, Round(x), Round(y));
    PairIsASituation(catalog, f, activePorts, whole, at, x, y);
    PairPositions(f, at, x, y);
    PairPositions(f, at, Round(x), Round(y));
  }

  lemma PairPositions(f: Node, at: Position, x: real, y: real)
    ensures var d := Pair(f, at, x, y);
            && Twin(f).id in d.layout && d.layout[Twin(f).id] == Position(x, y, None)
            && f.id in d.layout && d.layout[f.id] == at.(pinned := Some(true))
  {
    TwinIsOther(f);
  }

  lemma PairIsASituation(catalog: Catalog, f: Node, activePorts: Option<nat>, whole: bool, at: Position, x: real, y: real)
    requires NodeTolerable(PipelineV2, catalog, f) && InRange(at) && InRange(Position(x, y, None)) && InRange(Position(Round(x), Round(y), None))
    requires whole ==> Whole(x) && Whole(y) && Whole(at.x) && Whole(at.y)
    requires !Near(BoxAt(Position(x, y, None), Size(catalog, f)), BoxAt(at, NodeSize(activePorts)), GAP)
    ensures Situation(catalog, Still(activePorts), Pair(f, at, x, y), None, Pair(f, at, Round(x), Round(y)), Twin(f), f, activePorts, whole)
  {
    PairIsAcceptable(catalog, f, at, x, y);
    PairIsAcceptable(catalog, f, at, Round(x), Round(y));
    PairSettles(catalog, f, activePorts, at, x, y);
    PairPositions(f, at, x, y);
    if whole {
      PairIsWholeInput(f, activePorts, at, x, y);
    }
  }

  lemma PairIsWholeInput(f: Node, activePorts: Option<nat>, at: Position, x: real, y: real)
    requires Whole(x) && Whole(y) && Whole(at.x) && Whole(at.y)
    ensures WholeInput(Still(activePorts), Pair(f, at, x, y))
  {
    PairPositions(f, at, x, y);
    assert Units(0) == 0.0;
  }

  /** Beside the fixed node: rounding may take half a unit of the gap. */
  lemma BesideIsTight(catalog: Catalog, f: Node, activePorts: Option<nat>, whole: bool, distance: real)
    requires NodeTolerable(PipelineV2, catalog, f) && distance > Kept(whole)
    ensures !KeepsApart(catalog, f, activePorts, whole, distance)
  {
    SizeIsWhole(PortCount(catalog, f.kind));
    SizeIsWhole(activePorts);
    assert Units(0) == 0.0 && Units(270) == 270.0;
    var x := if whole then 0.0 else 0.5;
    NotApart(catalog, f, activePorts, whole, distance, Position(x + 270.0, 0.0, None), x, 0.0);
  }

  /** Below the fixed node: what it is drawn taller is lost as well. */
  lemma BelowIsTight(catalog: Catalog, f: Node, activePorts: Option<nat>, whole: bool, distance: real)
    requires NodeTolerable(PipelineV2, catalog, f) && (activePorts.Some? ==> activePorts.value <= 32)
    requires distance >= 0.0 && Size(catalog, f).1 - NodeSize(activePorts).1 + distance > Kept(whole)
    ensures !KeepsApart(catalog, f, activePorts, whole, distance)
  {
    SizeIsWhole(PortCount(catalog, f.kind));
    SizeIsWhole(activePorts);
    assert Units(0) == 0.0 && Units(60) == 60.0;
    WholeSum(0.0, NodeSize(activePorts).1);
    WholeSum(0.0 - NodeSize(activePorts).1, 60.0);
    var surplus := Size(catalog, f).1 - NodeSize(activePorts).1 + distance - Kept(whole);
    var y := if whole || surplus >= 1.0 then 0.0 else 0.5 - surplus / 2.0;
    assert Round(y) == 0.0;
    NotApart(catalog, f, activePorts, whole, distance, Position(0.0, y - NodeSize(activePorts).1 - 60.0, None), 0.0, y);
  }

  /** Every layout keeps a moved node this far from a fixed node as it is drawn, and none keeps it farther:
      30 units, less half a unit for rounding unless all coordinates are whole, less what the version the fixed node
      is pinned to is taller than the active version of its type. */
  lemma DrawnDistance(catalog: Catalog, f: Node, activePorts: Option<nat>, whole: bool, distance: real)
    requires NodeTolerable(PipelineV2, catalog, f) && (activePorts.Some? ==> activePorts.value <= 32) && distance >= 0.0
    ensures KeepsApart(catalog, f, activePorts, whole, distance) <==> distance + Excess(catalog, f, activePorts) <= Kept(whole)
  {
    if distance + Excess(catalog, f, activePorts) <= Kept(whole) {
      GapIsKept(catalog, f, activePorts, whole, distance);
    } else if distance > Kept(whole) {
      BesideIsTight(catalog, f, activePorts, whole, distance);
    } else {
      BelowIsTight(catalog, f, activePorts, whole, distance);
    }
  }
}
