/** Placing a computed block of nodes clear of the nodes that stay (packages/pipeline-control/layout.ts). */
module Arrangement {
  import opened Wrappers
  import opened PipelineModel
  import opened Inspection

  const TITLE_HEIGHT := 30.0
  const GAP := 30.0

  datatype Box = Box(x: real, y: real, w: real, h: real)

  /** A node of the block as the layout engine returns it, relative to the block's origin. */
  datatype Child = Child(id: Id, x: real, y: real, w: real, h: real)

  /** The boxes come closer than `gap` in both directions. */
  predicate Near(a: Box, b: Box, gap: real) {
    a.x < b.x + b.w + gap && a.x + a.w + gap > b.x && a.y < b.y + b.h + gap && a.y + a.h + gap > b.y
  }

  function BoxOf(child: Child, x: real, y: real, shift: real): Box {
    Box(x + child.x, y + child.y + shift - TITLE_HEIGHT, child.w, child.h)
  }

  /** The shift that puts the child just below the box. */
  function ShiftBelow(child: Child, box: Box, y: real): real {
    box.y + box.h + GAP - (y + child.y - TITLE_HEIGHT)
  }

  ghost predicate Clear(children: seq<Child>, boxes: seq<Box>, x: real, y: real, shift: real) {
    forall c, b :: c in children && b in boxes ==> !Near(BoxOf(c, x, y, shift), b, GAP)
  }

  /* ---------- one pass over all pairs ---------- */

  ghost predicate Overlaps(children: seq<Child>, boxes: seq<Box>, x: real, y: real, shift: real, m: int, n: int) {
    && 0 <= m < |children| && 0 <= n < |boxes|
    && Near(BoxOf(children[m], x, y, shift), boxes[n], GAP)
  }

  /** `next` is the largest shift demanded by the overlapping pairs seen so far. */
  ghost predicate Demanded(children: seq<Child>, boxes: seq<Box>, x: real, y: real, shift: real, next: real, i: nat, j: nat) {
    && next >= shift
    && (forall m, n :: (Overlaps(children, boxes, x, y, shift, m, n) && Earlier(m, n, i, j)) ==> ShiftBelow(children[m], boxes[n], y) <= next)
    && (next > shift ==> exists m, n :: Overlaps(children, boxes, x, y, shift, m, n) && ShiftBelow(children[m], boxes[n], y) == next)
  }

  ghost predicate Earlier(m: int, n: int, i: nat, j: nat) {
    m < i || (m == i && n < j)
  }

  method Pass(children: seq<Child>, boxes: seq<Box>, x: real, y: real, shift: real) returns (next: real)
    ensures Demanded(children, boxes, x, y, shift, next, |children|, 0)
  {
    next := shift;
    for i := 0 to |children|
      invariant Demanded(children, boxes, x, y, shift, next, i, 0)
    {
      for j := 0 to |boxes|
        invariant Demanded(children, boxes, x, y, shift, next, i, j)
      {
        assert Overlaps(children, boxes, x, y, shift, i, j) <==> Near(BoxOf(children[i], x, y, shift), boxes[j], GAP);
        if Near(BoxOf(children[i], x, y, shift), boxes[j], GAP) {
          var below := ShiftBelow(children[i], boxes[j], y);
          if below > next {
            next := below;
          }
        }
      }
    }
  }

  /* ---------- the bounded loop ---------- */

  /** Pairs the block has already moved past. */
  ghost function Retired(children: seq<Child>, boxes: seq<Box>, y: real, shift: real): set<(int, int)> {
    set m, n | 0 <= m < |children| && 0 <= n < |boxes| && ShiftBelow(children[m], boxes[n], y) <= shift :: (m, n)
  }

  ghost function Pairs(m: nat, n: nat): set<(int, int)> {
    set i, j | 0 <= i < m && 0 <= j < n :: (i, j)
  }

  ghost function Row(i: int, n: nat): set<(int, int)> {
    set j | 0 <= j < n :: (i, j)
  }

  lemma {:induction false} RowCount(i: int, n: nat)
    ensures |Row(i, n)| == n
  {
    if n > 0 {
      RowCount(i, n - 1);
      assert Row(i, n) == Row(i, n - 1) + {(i, n - 1)};
    } else {
      assert Row(i, n) == {};
    }
  }

  lemma OneMoreRow(m: nat, n: nat)
    requires m > 0
    ensures |Pairs(m, n)| == |Pairs(m - 1, n)| + n
  {
    RowCount(m - 1, n);
    assert Pairs(m, n) == Pairs(m - 1, n) + Row(m - 1, n);
    assert Pairs(m - 1, n) !! Row(m - 1, n);
  }

  lemma Distribute(m: int, n: int)
    ensures (m - 1) * n + n == m * n
  {
  }

  lemma {:induction false} PairCount(m: nat, n: nat)
    ensures |Pairs(m, n)| == m * n
  {
    if m > 0 {
      PairCount(m - 1, n);
      OneMoreRow(m, n);
      Distribute(m, n);
    } else {
      assert Pairs(m, n) == {};
    }
  }

  lemma {:induction false} SubsetSize<T>(a: set<T>, b: set<T>)
    requires a <= b
    ensures |a| <= |b|
    ensures |a| == |b| ==> a == b
  {
    assert |b| == |a| + |b - a| by { assert b == a + (b - a); }
    if |b - a| == 0 {
      assert b - a == {};
    }
  }

  /** A pass that moves the block retires at least one more pair. */
  lemma Progress(children: seq<Child>, boxes: seq<Box>, x: real, y: real, shift: real, next: real)
    requires Demanded(children, boxes, x, y, shift, next, |children|, 0) && next > shift
    ensures |Retired(children, boxes, y, shift)| < |Retired(children, boxes, y, next)|
  {
    var before, after := Retired(children, boxes, y, shift), Retired(children, boxes, y, next);
    var m, n :| Overlaps(children, boxes, x, y, shift, m, n) && ShiftBelow(children[m], boxes[n], y) == next;
    assert (m, n) in after && (m, n) !in before;
    SubsetSize(before + {(m, n)}, after);
  }

  lemma RetiredBound(children: seq<Child>, boxes: seq<Box>, y: real, shift: real)
    ensures |Retired(children, boxes, y, shift)| <= |children| * |boxes|
  {
    PairCount(|children|, |boxes|);
    SubsetSize(Retired(children, boxes, y, shift), Pairs(|children|, |boxes|));
  }

  /** Every clear shift lies at or beyond the shift demanded at an earlier one. */
  lemma DemandIsNecessary(children: seq<Child>, boxes: seq<Box>, x: real, y: real, shift: real, next: real, other: real)
    requires Demanded(children, boxes, x, y, shift, next, |children|, 0)
    requires other >= shift && Clear(children, boxes, x, y, other)
    ensures other >= next
  {
    if next > shift && other < next {
      var m, n :| Overlaps(children, boxes, x, y, shift, m, n) && ShiftBelow(children[m], boxes[n], y) == next;
      assert children[m] in children && boxes[n] in boxes;
      assert Near(BoxOf(children[m], x, y, other), boxes[n], GAP);
      assert false;
    }
  }

  lemma NothingDemandedIsClear(children: seq<Child>, boxes: seq<Box>, x: real, y: real, shift: real)
    requires Demanded(children, boxes, x, y, shift, shift, |children|, 0)
    ensures Clear(children, boxes, x, y, shift)
  {
    forall c, b | c in children && b in boxes ensures !Near(BoxOf(c, x, y, shift), b, GAP) {
      var m :| 0 <= m < |children| && children[m] == c;
      var n :| 0 <= n < |boxes| && boxes[n] == b;
      assert Overlaps(children, boxes, x, y, shift, m, n) ==> Earlier(m, n, |children|, 0);
    }
  }

  /** The least shift that clears every obstacle; a block that was shifted has a node just below a box. */
  ghost predicate LeastClear(children: seq<Child>, boxes: seq<Box>, x: real, y: real, shift: real) {
    && shift >= 0.0 && Clear(children, boxes, x, y, shift)
    && (forall other :: other >= 0.0 && Clear(children, boxes, x, y, other) ==> other >= shift)
    && Landed(children, boxes, y, shift)
  }

  ghost predicate Landed(children: seq<Child>, boxes: seq<Box>, y: real, shift: real) {
    shift == 0.0 || exists c, b :: c in children && b in boxes && ShiftBelow(c, b, y) == shift
  }

  /** The bounded number of passes always suffices. */
  method ClearObstacles(children: seq<Child>, boxes: seq<Box>, x: real, y: real) returns (shift: real)
    ensures LeastClear(children, boxes, x, y, shift)
  {
    shift := 0.0;
    var attempt := 0;
    while attempt <= |boxes| * |children|
      invariant shift >= 0.0 && attempt <= |Retired(children, boxes, y, shift)| && Landed(children, boxes, y, shift)
      invariant forall other :: other >= 0.0 && Clear(children, boxes, x, y, other) ==> other >= shift
      decreases |boxes| * |children| - attempt
    {
      var next := Pass(children, boxes, x, y, shift);
      if next == shift {
        NothingDemandedIsClear(children, boxes, x, y, shift);
        return;
      }
      forall other | other >= 0.0 && Clear(children, boxes, x, y, other) ensures other >= next {
        DemandIsNecessary(children, boxes, x, y, shift, next, other);
      }
      Progress(children, boxes, x, y, shift, next);
      shift := next;
      attempt := attempt + 1;
    }
    RetiredBound(children, boxes, y, shift);
    assert false;
  }

  /* ---------- arranging a document ---------- */

  datatype LayoutError = UnknownNode | InvalidPipeline

  /** Where the layout engine puts a node, and how many ports the active version of a type has, if there is one. */
  datatype Engine = Engine(origin: Id -> (real, real), activePorts: Id -> Option<nat>)

  /** Width and height of a node without its title bar, by the ports of its longer side. */
  function NodeSize(ports: Option<nat>): (real, real) {
    if ports.None? then (240.0, 180.0)
    else (240.0, (if 35 + ports.value * 26 > 96 then 35 + ports.value * 26 else 96) as real)
  }

  function PortCount(catalog: Catalog, kind: TypeKey): Option<nat> {
    match Lookup(catalog, kind)
    case None => None
    case Some(d) => Some(if |d.ports.inputs| > |d.ports.outputs| then |d.ports.inputs| else |d.ports.outputs|)
  }

  /** The size a node is drawn with: by the version it is pinned to. */
  function Size(catalog: Catalog, n: Node): (real, real) {
    NodeSize(PortCount(catalog, n.kind))
  }

  /** The size a node is avoided with: by the active version of its type. */
  function ActiveSize(engine: Engine, n: Node): (real, real) {
    NodeSize(engine.activePorts(n.kind.name))
  }

  /** Rounding half up. */
  function Round(v: real): real {
    (v + 0.5).Floor as real
  }

  predicate Selected(scope: Option<seq<Id>>, id: Id) {
    scope.None? || id in scope.value
  }

  /** Selected and not pinned. */
  predicate Moves(d: Document, scope: Option<seq<Id>>, n: Node) {
    Selected(scope, n.id) && n.id in d.layout && d.layout[n.id].pinned != Some(true)
  }

  /** The nodes that move, or those that stay. */
  function Those(d: Document, scope: Option<seq<Id>>, nodes: seq<Node>, moves: bool): (r: seq<Node>)
    ensures forall n :: n in r <==> n in nodes && Moves(d, scope, n) == moves
  {
    if nodes == [] then []
    else if Moves(d, scope, nodes[0]) == moves then [nodes[0]] + Those(d, scope, nodes[1..], moves)
    else Those(d, scope, nodes[1..], moves)
  }

  function Least(values: seq<real>): real
    requires values != []
  {
    if |values| == 1 || values[0] <= Least(values[1..]) then values[0] else Least(values[1..])
  }

  function ChildOf(catalog: Catalog, engine: Engine, n: Node): Child {
    Child(n.id, engine.origin(n.id).0, engine.origin(n.id).1, Size(catalog, n).0, Size(catalog, n).1 + TITLE_HEIGHT)
  }

  /** The canvas box of a node at a stored position: the title bar sits above it. */
  function BoxAt(p: Position, size: (real, real)): Box {
    Box(p.x, p.y - TITLE_HEIGHT, size.0, size.1 + TITLE_HEIGHT)
  }

  function Settle(p: Position, child: Child, x: real, y: real, shift: real): Position {
    Position(Round(x + child.x), Round(y + child.y + shift), p.pinned)
  }

  function Moving(d: Document, scope: Option<seq<Id>>): seq<Node> {
    Those(d, scope, d.graph.nodes, true)
  }

  function Fixed(d: Document, scope: Option<seq<Id>>): seq<Node> {
    Those(d, scope, d.graph.nodes, false)
  }

  function MovingXs(d: Document, scope: Option<seq<Id>>): seq<real> {
    var moving := Moving(d, scope);
    seq(|moving|, i requires 0 <= i < |moving| => assert moving[i] in moving; d.layout[moving[i].id].x)
  }

  function MovingYs(d: Document, scope: Option<seq<Id>>): seq<real> {
    var moving := Moving(d, scope);
    seq(|moving|, i requires 0 <= i < |moving| => assert moving[i] in moving; d.layout[moving[i].id].y)
  }

  /** The block starts at the least coordinates of what moves, or at the canvas origin when everything moves. */
  function AnchorX(d: Document, scope: Option<seq<Id>>): real
    requires Moving(d, scope) != []
  {
    if Fixed(d, scope) == [] then 40.0 else Least(MovingXs(d, scope))
  }

  function AnchorY(d: Document, scope: Option<seq<Id>>): real
    requires Moving(d, scope) != []
  {
    if Fixed(d, scope) == [] then 80.0 else Least(MovingYs(d, scope))
  }

  function Children(catalog: Catalog, engine: Engine, d: Document, scope: Option<seq<Id>>): seq<Child> {
    var moving := Moving(d, scope);
    seq(|moving|, i requires 0 <= i < |moving| => ChildOf(catalog, engine, moving[i]))
  }

  function Obstacles(engine: Engine, d: Document, scope: Option<seq<Id>>): seq<Box> {
    var fixed := Fixed(d, scope);
    seq(|fixed|, i requires 0 <= i < |fixed| =>
      if fixed[i].id in d.layout then BoxAt(d.layout[fixed[i].id], ActiveSize(engine, fixed[i])) else Box(0.0, 0.0, 0.0, 0.0))
  }

  lemma RoundingKeepsDistance(p: Position, n: Node, catalog: Catalog, engine: Engine, x: real, y: real, shift: real, b: Box)
    requires !Near(BoxOf(ChildOf(catalog, engine, n), x, y, shift), b, GAP)
    ensures !Near(BoxAt(Settle(p, ChildOf(catalog, engine, n), x, y, shift), Size(catalog, n)), b, GAP - 0.5)
  {
    var c := ChildOf(catalog, engine, n);
    assert x + c.x - 0.5 <= Round(x + c.x) <= x + c.x + 0.5;
    assert y + c.y + shift - 0.5 <= Round(y + c.y + shift) <= y + c.y + shift + 0.5;
  }

  /** What a successful arrangement changed: one common translation of the moved nodes, clear of all others. */
  ghost predicate Arranged(catalog: Catalog, engine: Engine, d: Document, scope: Option<seq<Id>>, result: Document) {
    && result.graph == d.graph
    && result.layout.Keys == d.layout.Keys
    && (forall id :: id in d.layout ==> result.layout[id].pinned == d.layout[id].pinned)
    && (forall n :: n in d.graph.nodes && !Moves(d, scope, n) && n.id in d.layout ==> result.layout[n.id] == d.layout[n.id])
    && (Moving(d, scope) != [] ==> exists shift ::
          LeastClear(Children(catalog, engine, d, scope), Obstacles(engine, d, scope), AnchorX(d, scope), AnchorY(d, scope), shift)
          && Translated(catalog, engine, d, scope, result, AnchorX(d, scope), AnchorY(d, scope), shift))
    && (forall m, f :: m in d.graph.nodes && Moves(d, scope, m) && f in d.graph.nodes && !Moves(d, scope, f) && f.id in d.layout ==>
          !Near(BoxAt(result.layout[m.id], Size(catalog, m)), BoxAt(d.layout[f.id], ActiveSize(engine, f)), GAP - 0.5))
  }

  ghost predicate Translated(catalog: Catalog, engine: Engine, d: Document, scope: Option<seq<Id>>, result: Document, x: real, y: real, shift: real)
    requires result.layout.Keys == d.layout.Keys
  {
    forall n :: n in d.graph.nodes && Moves(d, scope, n) ==>
      result.layout[n.id] == Settle(d.layout[n.id], ChildOf(catalog, engine, n), x, y, shift)
  }

  ghost predicate UnknownScope(d: Document, scope: Option<seq<Id>>) {
    scope.Some? && exists id :: id in scope.value && id !in NodeIds(d.graph.nodes)
  }

  /** The moved nodes are settled, and no other position changed. */
  ghost predicate Written(catalog: Catalog, engine: Engine, d: Document, moving: seq<Node>, x: real, y: real, shift: real, layout: Layout)
    requires forall n :: n in moving ==> n.id in d.layout
  {
    && layout.Keys == d.layout.Keys
    && (forall n :: n in moving ==> layout[n.id] == Settle(d.layout[n.id], ChildOf(catalog, engine, n), x, y, shift))
    && (forall id :: id in d.layout && (forall n :: n in moving ==> n.id != id) ==> layout[id] == d.layout[id])
  }

  /** Writing the settled positions, one child at a time. */
  method WritePositions(catalog: Catalog, engine: Engine, d: Document, moving: seq<Node>, x: real, y: real, shift: real) returns (layout: Layout)
    requires UniqueIds(d.graph.nodes) && forall n :: n in moving ==> n in d.graph.nodes && n.id in d.layout
    ensures Written(catalog, engine, d, moving, x, y, shift, layout)
  {
    layout := d.layout;
    for i := 0 to |moving|
      invariant layout.Keys == d.layout.Keys
      invariant forall k :: 0 <= k < i ==> layout[moving[k].id] == Settle(d.layout[moving[k].id], ChildOf(catalog, engine, moving[k]), x, y, shift)
      invariant forall id :: id in d.layout && (forall k :: 0 <= k < i ==> moving[k].id != id) ==> layout[id] == d.layout[id]
    {
      var n := moving[i];
      forall k | 0 <= k < i && moving[k].id == n.id ensures moving[k] == n {
        SameIdSameNode(d.graph.nodes, moving[k], n);
      }
      layout := layout[n.id := Settle(d.layout[n.id], ChildOf(catalog, engine, n), x, y, shift)];
    }
  }

  lemma SameIdSameNode(nodes: seq<Node>, a: Node, b: Node)
    requires UniqueIds(nodes) && a in nodes && b in nodes && a.id == b.id
    ensures a == b
  {
    var i :| 0 <= i < |nodes| && nodes[i] == a;
    var j :| 0 <= j < |nodes| && nodes[j] == b;
  }

  /** Moves the laid-out block clear of the fixed nodes. */
  method MoveBlock(catalog: Catalog, engine: Engine, d: Document, scope: Option<seq<Id>>) returns (result: Document)
    requires UniqueIds(d.graph.nodes) && (forall n :: n in d.graph.nodes ==> n.id in d.layout) && Moving(d, scope) != []
    ensures Arranged(catalog, engine, d, scope, result)
  {
    var moving, x, y := Moving(d, scope), AnchorX(d, scope), AnchorY(d, scope);
    var shift := ClearObstacles(Children(catalog, engine, d, scope), Obstacles(engine, d, scope), x, y);
    var layout := WritePositions(catalog, engine, d, moving, x, y, shift);
    result := Document(d.graph, layout);
    ArrangedResult(catalog, engine, d, scope, shift, result);
  }

  method Arrange(catalog: Catalog, engine: Engine, d: Document, scope: Option<seq<Id>>) returns (r: Result<Document, LayoutError>)
    ensures !Acceptable(catalog, d) ==> r == Failure(InvalidPipeline)
    ensures Acceptable(catalog, d) && UnknownScope(d, scope) ==> r == Failure(UnknownNode)
    ensures Acceptable(catalog, d) && !UnknownScope(d, scope) ==>
              exists result :: Arranged(catalog, engine, d, scope, result)
                && r == if Acceptable(catalog, result) then Success(result) else Failure(InvalidPipeline)
  {
    var ok := ParsePipeline(catalog, d);
    if !ok {
      return Failure(InvalidPipeline);
    }
    var ids := NodeIds(d.graph.nodes);
    if scope.Some? && exists id :: id in scope.value && id !in ids {
      return Failure(UnknownNode);
    }
    var moving := Moving(d, scope);
    if moving == [] {
      assert Arranged(catalog, engine, d, scope, d);
      return Success(d);
    }
    forall n | n in d.graph.nodes ensures n.id in d.layout {
      assert n.id in ids;
    }
    var result := MoveBlock(catalog, engine, d, scope);
    ok := ParsePipeline(catalog, result);
    r := if ok then Success(result) else Failure(InvalidPipeline);
  }

  lemma ArrangedResult(catalog: Catalog, engine: Engine, d: Document, scope: Option<seq<Id>>, shift: real, result: Document)
    requires UniqueIds(d.graph.nodes) && (forall n :: n in d.graph.nodes ==> n.id in d.layout) && Moving(d, scope) != []
    requires LeastClear(Children(catalog, engine, d, scope), Obstacles(engine, d, scope), AnchorX(d, scope), AnchorY(d, scope), shift)
    requires result.graph == d.graph && Written(catalog, engine, d, Moving(d, scope), AnchorX(d, scope), AnchorY(d, scope), shift, result.layout)
    ensures Arranged(catalog, engine, d, scope, result)
  {
    var x, y := AnchorX(d, scope), AnchorY(d, scope);
    assert Translated(catalog, engine, d, scope, result, x, y, shift);
    OthersStay(catalog, engine, d, scope, x, y, shift, result.layout);
    PinsStay(catalog, engine, d, Moving(d, scope), x, y, shift, result.layout);
    MovedAreClear(catalog, engine, d, scope, x, y, shift, result.layout);
  }

  lemma OthersStay(catalog: Catalog, engine: Engine, d: Document, scope: Option<seq<Id>>, x: real, y: real, shift: real, layout: Layout)
    requires UniqueIds(d.graph.nodes) && forall n :: n in d.graph.nodes ==> n.id in d.layout
    requires Written(catalog, engine, d, Moving(d, scope), x, y, shift, layout)
    ensures forall n :: n in d.graph.nodes && !Moves(d, scope, n) ==> layout[n.id] == d.layout[n.id]
  {
    forall n | n in d.graph.nodes && !Moves(d, scope, n) ensures layout[n.id] == d.layout[n.id] {
      NotAmong(d.graph.nodes, Moving(d, scope), n);
    }
  }

  lemma MovedAreClear(catalog: Catalog, engine: Engine, d: Document, scope: Option<seq<Id>>, x: real, y: real, shift: real, layout: Layout)
    requires forall n :: n in d.graph.nodes ==> n.id in d.layout
    requires Written(catalog, engine, d, Moving(d, scope), x, y, shift, layout)
    requires Clear(Children(catalog, engine, d, scope), Obstacles(engine, d, scope), x, y, shift)
    ensures forall m, f :: m in d.graph.nodes && Moves(d, scope, m) && f in d.graph.nodes && !Moves(d, scope, f) ==>
              !Near(BoxAt(layout[m.id], Size(catalog, m)), BoxAt(d.layout[f.id], ActiveSize(engine, f)), GAP - 0.5)
  {
    var moving, fixed := Moving(d, scope), Fixed(d, scope);
    forall m, f | m in moving && f in fixed
      ensures !Near(BoxAt(layout[m.id], Size(catalog, m)), BoxAt(d.layout[f.id], ActiveSize(engine, f)), GAP - 0.5)
    {
      var i :| 0 <= i < |moving| && moving[i] == m;
      var j :| 0 <= j < |fixed| && fixed[j] == f;
      SettledClear(catalog, engine, d.layout[m.id], m, Children(catalog, engine, d, scope), Obstacles(engine, d, scope), x, y, shift, i, j);
    }
  }

  lemma PinsStay(catalog: Catalog, engine: Engine, d: Document, moving: seq<Node>, x: real, y: real, shift: real, layout: Layout)
    requires (forall n :: n in moving ==> n.id in d.layout) && Written(catalog, engine, d, moving, x, y, shift, layout)
    ensures forall id :: id in d.layout ==> layout[id].pinned == d.layout[id].pinned
  {
    forall id | id in d.layout ensures layout[id].pinned == d.layout[id].pinned {
      if n :| n in moving && n.id == id {
        assert layout[n.id] == Settle(d.layout[n.id], ChildOf(catalog, engine, n), x, y, shift);
      }
    }
  }

  lemma NotAmong(nodes: seq<Node>, moving: seq<Node>, n: Node)
    requires UniqueIds(nodes) && n in nodes && n !in moving && forall m :: m in moving ==> m in nodes
    ensures forall m :: m in moving ==> m.id != n.id
  {
    forall m | m in moving ensures m.id != n.id {
      if m.id == n.id {
        SameIdSameNode(nodes, m, n);
      }
    }
  }

  lemma SettledClear(catalog: Catalog, engine: Engine, p: Position, m: Node, children: seq<Child>, boxes: seq<Box>,
                     x: real, y: real, shift: real, i: nat, j: nat)
    requires Clear(children, boxes, x, y, shift) && i < |children| && j < |boxes| && children[i] == ChildOf(catalog, engine, m)
    ensures !Near(BoxAt(Settle(p, ChildOf(catalog, engine, m), x, y, shift), Size(catalog, m)), boxes[j], GAP - 0.5)
  {
    assert children[i] in children && boxes[j] in boxes;
    RoundingKeepsDistance(p, m, catalog, engine, x, y, shift, boxes[j]);
  }
}
