/** Validation of a pipeline and its execution order (packages/pipeline-model/index.ts). */
module Inspection {
  import opened Wrappers
  import opened PipelineModel
  import opened Cycles

  datatype Code =
    | BlankName | Empty | DuplicateNode | BadBinding | UnknownType | ContractMismatch | BadConfig
    | DuplicateEdge | DanglingEdge | UnknownPort | PortType | MultipleInput | MissingInput | Cycle

  datatype Issue = Issue(code: Code, node: Option<Id>)

  /* ---------- what the issues mean ---------- */

  /** White space as JavaScript trims it. */
  predicate WhiteSpace(c: char) {
    || '\U{0009}' <= c <= '\U{000D}' || c == ' ' || c == '\U{00A0}' || c == '\U{1680}' || '\U{2000}' <= c <= '\U{200A}'
    || c == '\U{2028}' || c == '\U{2029}' || c == '\U{202F}' || c == '\U{205F}' || c == '\U{3000}' || c == '\U{FEFF}'
  }

  predicate Blank(name: string) {
    forall c :: c in name ==> WhiteSpace(c)
  }

  function PortIdentity(ports: seq<Port>): seq<(Id, ArtifactKind)> {
    seq(|ports|, i requires 0 <= i < |ports| => (ports[i].name, ports[i].kind))
  }

  /** The per-node checks: binding kind, known type, contract snapshot, configuration. */
  function NodeChecks(catalog: Catalog, n: Node): seq<Issue> {
    var binding := if n.binding.Some? && BindingKind(n.kind.name) != Some(n.binding.value.kind)
                   then [Issue(BadBinding, Some(n.id))] else [];
    match Lookup(catalog, n.kind)
    case None => binding + [Issue(UnknownType, Some(n.id))]
    case Some(d) =>
      var contract := if n.snapshot.Some?
                         && (PortIdentity(n.snapshot.value.inputs) != PortIdentity(d.ports.inputs)
                             || PortIdentity(n.snapshot.value.outputs) != PortIdentity(d.ports.outputs))
                      then [Issue(ContractMismatch, Some(n.id))] else [];
      binding + contract + (if d.accepts(n.config) then [] else [Issue(BadConfig, Some(n.id))])
  }

  predicate TolerableFor(schema: Schema, code: Code, snapshot: Option<Ports>) {
    code in {UnknownType, ContractMismatch} && schema.PipelineV2? && snapshot.Some?
  }

  /** Issues a stored draft may carry: unfinished wiring, cycles, and nodes whose type is unavailable. */
  predicate Tolerated(g: Graph, issue: Issue) {
    || issue.code in {MissingInput, Empty, Cycle}
    || (issue.node.Some?
        && FindNode(g.nodes, issue.node.value).Some?
        && TolerableFor(g.schema, issue.code, FindNode(g.nodes, issue.node.value).value.snapshot))
  }

  ghost predicate NodeTolerable(schema: Schema, catalog: Catalog, n: Node) {
    forall x :: x in NodeChecks(catalog, n) ==> TolerableFor(schema, x.code, n.snapshot)
  }

  /** A graph a draft may hold. */
  ghost predicate WellFormed(catalog: Catalog, g: Graph) {
    && !Blank(g.name)
    && UniqueIds(g.nodes)
    && (forall n :: n in g.nodes ==> NodeTolerable(g.schema, catalog, n))
    && (forall e :: e in g.edges ==> Wired(catalog, g.nodes, e))
    && UniqueEdgeIds(g.edges)
    && OneSourcePerInput(g.edges)
  }

  ghost predicate AllInputsConnected(catalog: Catalog, g: Graph) {
    forall n, p :: n in g.nodes && Visual(catalog, n).Some? && p in Visual(catalog, n).value.inputs
      ==> ConnectedInput(g.edges, Connector(n.id, p.name))
  }

  ghost predicate ConnectedInput(edges: seq<Edge>, input: Connector) {
    exists e :: e in edges && e.to == input
  }

  /** A graph a run may start from. */
  ghost predicate Executable(catalog: Catalog, g: Graph) {
    && WellFormed(catalog, g)
    && g.nodes != []
    && (forall n :: n in g.nodes ==> NodeChecks(catalog, n) == [])
    && AllInputsConnected(catalog, g)
    && !HasCycle(g.edges)
  }

  /** A settings binding is of the kind its node's type expects. */
  predicate BindingFits(n: Node) {
    n.binding.Some? ==> BindingKind(n.kind.name) == Some(n.binding.value.kind)
  }

  predicate PortsAgree(a: seq<Port>, b: seq<Port>) {
    |a| == |b| && forall i :: 0 <= i < |a| ==> a[i].name == b[i].name && a[i].kind == b[i].kind
  }

  /** Installed, with the ports it was pinned to, correctly configured and bound. */
  predicate Clean(catalog: Catalog, n: Node) {
    && BindingFits(n) && Lookup(catalog, n.kind).Some?
    && var d := Lookup(catalog, n.kind).value;
       && d.accepts(n.config)
       && (n.snapshot.Some? ==> PortsAgree(n.snapshot.value.inputs, d.ports.inputs) && PortsAgree(n.snapshot.value.outputs, d.ports.outputs))
  }

  lemma IdentityMeans(a: seq<Port>, b: seq<Port>)
    ensures PortIdentity(a) == PortIdentity(b) <==> PortsAgree(a, b)
  {
    if PortIdentity(a) == PortIdentity(b) {
      assert |PortIdentity(a)| == |a| && |PortIdentity(b)| == |b|;
      forall i | 0 <= i < |a| ensures a[i].name == b[i].name && a[i].kind == b[i].kind {
        assert PortIdentity(a)[i] == PortIdentity(b)[i];
      }
    }
  }

  /** The checks of a node find nothing exactly when it is clean. */
  lemma ChecksFindUnclean(catalog: Catalog, n: Node)
    ensures NodeChecks(catalog, n) == [] <==> Clean(catalog, n)
  {
    if n.snapshot.Some? && Lookup(catalog, n.kind).Some? {
      IdentityMeans(n.snapshot.value.inputs, Lookup(catalog, n.kind).value.ports.inputs);
      IdentityMeans(n.snapshot.value.outputs, Lookup(catalog, n.kind).value.ports.outputs);
    }
  }

  /** A draft of the first version holds clean nodes only; one of the second also nodes with pinned ports whose type is not
      installed or has other ports now, but no wrong binding and no configuration its type rejects. */
  lemma ToleratedNodes(schema: Schema, catalog: Catalog, n: Node)
    ensures NodeTolerable(schema, catalog, n)
            <==> if schema.PrototypeV1? then Clean(catalog, n)
                 else BindingFits(n) && (if Lookup(catalog, n.kind).Some? then Lookup(catalog, n.kind).value.accepts(n.config) else n.snapshot.Some?)
  {
    ChecksFindUnclean(catalog, n);
    var issues := NodeChecks(catalog, n);
    if issues != [] {
      assert issues[0] in issues;
    }
    if !BindingFits(n) {
      assert Issue(BadBinding, Some(n.id)) in issues;
    }
    match Lookup(catalog, n.kind)
    case None => assert Issue(UnknownType, Some(n.id)) in issues;
    case Some(d) =>
      if !d.accepts(n.config) {
        assert Issue(BadConfig, Some(n.id)) in issues;
      }
  }

  /** Pinned ports decide the wiring, whatever is installed. */
  lemma PinnedPortsDecide(a: Catalog, b: Catalog, nodes: seq<Node>, e: Edge)
    requires forall n :: n in nodes ==> n.snapshot.Some?
    ensures Wired(a, nodes, e) <==> Wired(b, nodes, e)
  {
  }

  /** A draft of the second version whose nodes all pin their ports outlives any change of the catalog, as long as the types
      that are still installed accept its configurations. */
  lemma DraftsOutliveTheCatalog(a: Catalog, b: Catalog, g: Graph)
    requires WellFormed(a, g) && g.schema.PipelineV2? && forall n :: n in g.nodes ==> n.snapshot.Some?
    ensures WellFormed(b, g) <==> forall n :: n in g.nodes && Lookup(b, n.kind).Some? ==> Lookup(b, n.kind).value.accepts(n.config)
  {
    forall n | n in g.nodes
      ensures NodeTolerable(g.schema, b, n) <==> (Lookup(b, n.kind).Some? ==> Lookup(b, n.kind).value.accepts(n.config))
    {
      ToleratedNodes(g.schema, a, n);
      ToleratedNodes(g.schema, b, n);
    }
    forall e | e in g.edges ensures Wired(b, g.nodes, e) {
      PinnedPortsDecide(a, b, g.nodes, e);
    }
  }

  const MAX_NODES: nat := 200
  const MAX_EDGES: nat := 1000

  predicate WithinLimits(g: Graph) {
    |g.nodes| <= MAX_NODES && |g.edges| <= MAX_EDGES
  }

  /** A graph a draft may hold and a reader accepts: well formed and not too large. */
  ghost predicate Readable(catalog: Catalog, g: Graph) {
    WellFormed(catalog, g) && WithinLimits(g)
  }

  /** A document the store accepts: a readable graph with one position per node. */
  ghost predicate Acceptable(catalog: Catalog, d: Document) {
    && Readable(catalog, d.graph)
    && d.layout.Keys == NodeIds(d.graph.nodes)
    && (forall id :: id in d.layout ==> InRange(d.layout[id]))
  }

  /* ---------- the node map: a later duplicate replaces an earlier one ---------- */

  function LastNode(nodes: seq<Node>, id: Id): (r: Option<Node>)
    ensures r.Some? ==> r.value in nodes && r.value.id == id
    ensures r.None? <==> forall n :: n in nodes ==> n.id != id
  {
    if nodes == [] then None
    else if nodes[|nodes| - 1].id == id then Some(nodes[|nodes| - 1])
    else LastNode(nodes[..|nodes| - 1], id)
  }

  function EdgeProblem(catalog: Catalog, nodes: seq<Node>, e: Edge): Option<Code> {
    var source := LastNode(nodes, e.from.node);
    var target := LastNode(nodes, e.to.node);
    if source.None? || target.None? then Some(DanglingEdge)
    else
      var output := OutputKind(catalog, source, e.from.port);
      var input := InputKind(catalog, target, e.to.port);
      if output.None? || input.None? then Some(UnknownPort)
      else if output != input then Some(PortType)
      else None
  }

  function AcceptedEdges(catalog: Catalog, nodes: seq<Node>, edges: seq<Edge>): (r: seq<Edge>)
    ensures forall e :: e in r <==> e in edges && EdgeProblem(catalog, nodes, e).None?
  {
    if edges == [] then []
    else
      var rest := AcceptedEdges(catalog, nodes, edges[..|edges| - 1]);
      var e := edges[|edges| - 1];
      if EdgeProblem(catalog, nodes, e).None? then rest + [e] else rest
  }

  lemma {:induction false} AllAccepted(catalog: Catalog, nodes: seq<Node>, edges: seq<Edge>)
    requires forall e :: e in edges ==> EdgeProblem(catalog, nodes, e).None?
    ensures AcceptedEdges(catalog, nodes, edges) == edges
  {
    if edges != [] {
      AllAccepted(catalog, nodes, edges[..|edges| - 1]);
      assert edges == edges[..|edges| - 1] + [edges[|edges| - 1]];
    }
  }

  lemma LastIsFirst(nodes: seq<Node>, id: Id)
    requires UniqueIds(nodes)
    ensures LastNode(nodes, id) == FindNode(nodes, id)
  {
    if LastNode(nodes, id).Some? {
      var i :| 0 <= i < |nodes| && nodes[i] == LastNode(nodes, id).value;
      FindFirst(nodes, i);
    }
  }

  lemma ProblemFreeIsWired(catalog: Catalog, nodes: seq<Node>, e: Edge)
    requires UniqueIds(nodes)
    ensures EdgeProblem(catalog, nodes, e).None? <==> Wired(catalog, nodes, e)
  {
    LastIsFirst(nodes, e.from.node);
    LastIsFirst(nodes, e.to.node);
  }

  /* ---------- first loop: nodes ---------- */

  ghost predicate CleanNodes(catalog: Catalog, nodes: seq<Node>) {
    UniqueIds(nodes) && forall n :: n in nodes ==> NodeChecks(catalog, n) == []
  }

  ghost predicate TolerableNodes(schema: Schema, catalog: Catalog, nodes: seq<Node>) {
    UniqueIds(nodes) && forall n :: n in nodes ==> NodeTolerable(schema, catalog, n)
  }

  predicate AllTolerated(g: Graph, issues: seq<Issue>) {
    forall x :: x in issues ==> Tolerated(g, x)
  }

  lemma NodeChecksTolerated(catalog: Catalog, g: Graph, i: nat)
    requires i < |g.nodes|
    requires forall j :: 0 <= j < i ==> g.nodes[j].id != g.nodes[i].id
    ensures AllTolerated(g, NodeChecks(catalog, g.nodes[i])) <==> NodeTolerable(g.schema, catalog, g.nodes[i])
  {
    FindFirst(g.nodes, i);
    forall x | x in NodeChecks(catalog, g.nodes[i])
      ensures Tolerated(g, x) <==> TolerableFor(g.schema, x.code, g.nodes[i].snapshot)
    {
      assert x.node == Some(g.nodes[i].id) && x.code !in {MissingInput, Empty, Cycle};
    }
  }

  lemma NodesStep(schema: Schema, catalog: Catalog, before: seq<Node>, n: Node)
    ensures NodeIds(before + [n]) == NodeIds(before) + {n.id}
    ensures CleanNodes(catalog, before + [n]) <==>
            CleanNodes(catalog, before) && n.id !in NodeIds(before) && NodeChecks(catalog, n) == []
    ensures TolerableNodes(schema, catalog, before + [n]) <==>
            TolerableNodes(schema, catalog, before) && n.id !in NodeIds(before) && NodeTolerable(schema, catalog, n)
  {
    var all := before + [n];
    assert forall m :: m in all <==> m in before || m == n;
    UniqueIdsStep(before, n);
  }

  lemma UniqueIdsStep(before: seq<Node>, n: Node)
    ensures UniqueIds(before + [n]) <==> UniqueIds(before) && n.id !in NodeIds(before)
  {
    var all := before + [n];
    if UniqueIds(all) {
      forall i, j | 0 <= i < j < |before| ensures before[i].id != before[j].id {
        assert all[i].id != all[j].id;
      }
      forall m | m in before ensures m.id != n.id {
        var i :| 0 <= i < |before| && before[i] == m;
        assert all[i].id != all[|before|].id;
      }
    } else {
      var i, j :| 0 <= i < j < |all| && all[i].id == all[j].id;
      assert all[i] in before;
    }
  }

  lemma ToleratedAppend(g: Graph, a: seq<Issue>, b: seq<Issue>)
    ensures AllTolerated(g, a + b) <==> AllTolerated(g, a) && AllTolerated(g, b)
  {
    assert forall x :: x in a + b <==> x in a || x in b;
  }

  ghost predicate NoCycleIssue(issues: seq<Issue>) {
    forall x :: x in issues ==> x.code != Cycle
  }

  /** What is wrong with node `i`, given the ids before it. */
  method InspectNode(catalog: Catalog, g: Graph, i: nat, seen: set<Id>) returns (found: seq<Issue>)
    requires i < |g.nodes| && seen == NodeIds(g.nodes[..i])
    ensures NoCycleIssue(found)
    ensures found == [] <==> g.nodes[i].id !in seen && NodeChecks(catalog, g.nodes[i]) == []
    ensures AllTolerated(g, found) <==> g.nodes[i].id !in seen && NodeTolerable(g.schema, catalog, g.nodes[i])
  {
    var n := g.nodes[i];
    found := NodeChecks(catalog, n);
    if n.id in seen {
      found := [Issue(DuplicateNode, Some(n.id))] + found;
      assert !Tolerated(g, found[0]);
    } else {
      FreshInPrefix(g.nodes, i);
      NodeChecksTolerated(catalog, g, i);
    }
  }

  method InspectNodes(catalog: Catalog, g: Graph) returns (issues: seq<Issue>)
    ensures NoCycleIssue(issues)
    ensures issues == [] <==> !Blank(g.name) && g.nodes != [] && CleanNodes(catalog, g.nodes)
    ensures AllTolerated(g, issues) <==> !Blank(g.name) && TolerableNodes(g.schema, catalog, g.nodes)
  {
    issues := [];
    if Blank(g.name) {
      issues := [Issue(BlankName, None)];
      assert !Tolerated(g, issues[0]);
    }
    if g.nodes == [] {
      ToleratedAppend(g, issues, [Issue(Empty, None)]);
      issues := issues + [Issue(Empty, None)];
    }
    var seen: set<Id> := {};
    for i := 0 to |g.nodes|
      invariant seen == NodeIds(g.nodes[..i])
      invariant NoCycleIssue(issues)
      invariant issues == [] <==> !Blank(g.name) && g.nodes != [] && CleanNodes(catalog, g.nodes[..i])
      invariant AllTolerated(g, issues) <==> !Blank(g.name) && TolerableNodes(g.schema, catalog, g.nodes[..i])
    {
      var n := g.nodes[i];
      assert g.nodes[..i + 1] == g.nodes[..i] + [n];
      NodesStep(g.schema, catalog, g.nodes[..i], n);
      var found := InspectNode(catalog, g, i, seen);
      ToleratedAppend(g, issues, found);
      seen := seen + {n.id};
      issues := issues + found;
    }
    assert g.nodes[..|g.nodes|] == g.nodes;
  }

  lemma FreshInPrefix(nodes: seq<Node>, i: nat)
    requires i < |nodes| && nodes[i].id !in NodeIds(nodes[..i])
    ensures forall j :: 0 <= j < i ==> nodes[j].id != nodes[i].id
  {
    forall j | 0 <= j < i ensures nodes[j].id != nodes[i].id {
      assert nodes[..i][j] in nodes[..i];
    }
  }

  /* ---------- second loop: edges ---------- */

  /** Targets of the edges leaving `u`, parallel edges repeated. */
  function Targets(edges: seq<Edge>, u: Id): seq<Id> {
    if edges == [] then []
    else
      var rest := Targets(edges[..|edges| - 1], u);
      var e := edges[|edges| - 1];
      if e.from.node == u then rest + [e.to.node] else rest
  }

  /** Number of edges into `v` whose source is not yet done. */
  function Pending(edges: seq<Edge>, v: Id, done: set<Id>): nat {
    if edges == [] then 0
    else
      var e := edges[|edges| - 1];
      Pending(edges[..|edges| - 1], v, done) + (if e.to.node == v && e.from.node !in done then 1 else 0)
  }

  ghost predicate SoundEdges(catalog: Catalog, nodes: seq<Node>, edges: seq<Edge>) {
    && (forall e :: e in edges ==> EdgeProblem(catalog, nodes, e).None?)
    && UniqueEdgeIds(edges)
    && OneSourcePerInput(edges)
  }

  ghost predicate HardIssues(g: Graph, issues: seq<Issue>) {
    forall x :: x in issues ==> !Tolerated(g, x) && x.code != Cycle
  }

  ghost function TargetsOf(edges: seq<Edge>): set<Connector> {
    set e | e in edges :: e.to
  }

  ghost function EdgeIds(edges: seq<Edge>): set<Id> {
    set e | e in edges :: e.id
  }

  /** `next` and `indegree` describe the accepted edges. */
  ghost predicate Describes(next: map<Id, seq<Id>>, indegree: map<Id, nat>, ids: set<Id>, edges: seq<Edge>) {
    && next.Keys == indegree.Keys == ids
    && (forall v :: v in next ==> next[v] == Targets(edges, v))
    && (forall v :: v in indegree ==> indegree[v] == Pending(edges, v, {}))
  }

  lemma DescribesStep(next: map<Id, seq<Id>>, indegree: map<Id, nat>, ids: set<Id>, edges: seq<Edge>, e: Edge)
    requires Describes(next, indegree, ids, edges) && e.from.node in ids && e.to.node in ids
    ensures Describes(next[e.from.node := next[e.from.node] + [e.to.node]],
                      indegree[e.to.node := indegree[e.to.node] + 1], ids, edges + [e])
  {
    assert (edges + [e])[..|edges|] == edges;
  }

  lemma AcceptedStep(catalog: Catalog, nodes: seq<Node>, before: seq<Edge>, e: Edge)
    ensures AcceptedEdges(catalog, nodes, before + [e]) ==
            AcceptedEdges(catalog, nodes, before) + (if EdgeProblem(catalog, nodes, e).None? then [e] else [])
    ensures EdgeIds(before + [e]) == EdgeIds(before) + {e.id}
    ensures TargetsOf(AcceptedEdges(catalog, nodes, before + [e])) ==
            TargetsOf(AcceptedEdges(catalog, nodes, before)) + (if EdgeProblem(catalog, nodes, e).None? then {e.to} else {})
  {
    assert (before + [e])[..|before|] == before;
  }

  datatype EdgeScan = EdgeScan(issues: seq<Issue>, edgeIds: set<Id>, connected: set<Connector>,
                               next: map<Id, seq<Id>>, indegree: map<Id, nat>)

  /** What the edge loop has established after the edges of `done`. */
  ghost predicate Scanned(catalog: Catalog, g: Graph, done: seq<Edge>, s: EdgeScan) {
    var accepted := AcceptedEdges(catalog, g.nodes, done);
    && HardIssues(g, s.issues)
    && s.edgeIds == EdgeIds(done)
    && (s.issues == [] <==> SoundEdges(catalog, g.nodes, done))
    && s.connected == TargetsOf(accepted)
    && Describes(s.next, s.indegree, NodeIds(g.nodes), accepted)
  }

  lemma ProblemIsHard(catalog: Catalog, g: Graph, e: Edge)
    ensures EdgeProblem(catalog, g.nodes, e).None? ==> e.from.node in NodeIds(g.nodes) && e.to.node in NodeIds(g.nodes)
    ensures EdgeProblem(catalog, g.nodes, e).Some? ==>
              EdgeProblem(catalog, g.nodes, e).value in {DanglingEdge, UnknownPort, PortType}
  {
  }

  lemma HardAppend(g: Graph, issues: seq<Issue>, x: Issue)
    requires HardIssues(g, issues) && x.code in {DuplicateEdge, MultipleInput, DanglingEdge, UnknownPort, PortType}
    ensures HardIssues(g, issues + [x])
  {
  }

  /** One edge: a duplicate id, a broken end or a second source is reported; a sound edge is recorded. */
  method InspectEdge(catalog: Catalog, g: Graph, ghost done: seq<Edge>, e: Edge, s: EdgeScan) returns (r: EdgeScan)
    requires Scanned(catalog, g, done, s)
    ensures Scanned(catalog, g, done + [e], r)
  {
    SoundEdgesStep(catalog, g.nodes, done, e);
    AcceptedStep(catalog, g.nodes, done, e);
    ProblemIsHard(catalog, g, e);
    var issues, connected, next, indegree := s.issues, s.connected, s.next, s.indegree;
    if e.id in s.edgeIds {
      HardAppend(g, issues, Issue(DuplicateEdge, None));
      issues := issues + [Issue(DuplicateEdge, None)];
    }
    var problem := EdgeProblem(catalog, g.nodes, e);
    if problem.Some? {
      var issue := Issue(problem.value, if problem.value == DanglingEdge then None else Some(e.to.node));
      HardAppend(g, issues, issue);
      issues := issues + [issue];
    } else {
      if e.to in connected {
        HardAppend(g, issues, Issue(MultipleInput, Some(e.to.node)));
        issues := issues + [Issue(MultipleInput, Some(e.to.node))];
      }
      connected := connected + {e.to};
      DescribesStep(next, indegree, NodeIds(g.nodes), AcceptedEdges(catalog, g.nodes, done), e);
      next := next[e.from.node := next[e.from.node] + [e.to.node]];
      indegree := indegree[e.to.node := indegree[e.to.node] + 1];
    }
    r := EdgeScan(issues, s.edgeIds + {e.id}, connected, next, indegree);
  }

  method InspectEdges(catalog: Catalog, g: Graph) returns (s: EdgeScan)
    ensures Scanned(catalog, g, g.edges, s)
  {
    s := EdgeScan([], {}, {}, map n | n in g.nodes :: n.id := [], map n | n in g.nodes :: n.id := 0);
    for i := 0 to |g.edges|
      invariant Scanned(catalog, g, g.edges[..i], s)
    {
      assert g.edges[..i + 1] == g.edges[..i] + [g.edges[i]];
      s := InspectEdge(catalog, g, g.edges[..i], g.edges[i], s);
    }
    assert g.edges[..|g.edges|] == g.edges;
  }

  lemma SoundEdgesStep(catalog: Catalog, nodes: seq<Node>, before: seq<Edge>, e: Edge)
    ensures SoundEdges(catalog, nodes, before + [e]) <==>
            && SoundEdges(catalog, nodes, before)
            && EdgeProblem(catalog, nodes, e).None?
            && e.id !in EdgeIds(before)
            && e.to !in TargetsOf(AcceptedEdges(catalog, nodes, before))
  {
    var all := before + [e];
    assert forall d :: d in all <==> d in before || d == e;
    if SoundEdges(catalog, nodes, all) {
      forall i, j | 0 <= i < j < |before| ensures before[i].id != before[j].id && before[i].to != before[j].to {
        assert all[i].id != all[j].id && all[i].to != all[j].to;
      }
      forall d | d in before ensures d.id != e.id && d.to != e.to {
        var i :| 0 <= i < |before| && before[i] == d;
        assert all[i].id != all[|before|].id && all[i].to != all[|before|].to;
      }
    }
    if SoundEdges(catalog, nodes, before) && EdgeProblem(catalog, nodes, e).None?
       && e.id !in EdgeIds(before) && e.to !in TargetsOf(AcceptedEdges(catalog, nodes, before)) {
      forall i, j | 0 <= i < j < |all| ensures all[i].id != all[j].id && all[i].to != all[j].to {
        assert all[i] in before;
        if j < |before| {
          assert before[i].id != before[j].id && before[i].to != before[j].to;
        }
      }
    }
  }

  /* ---------- third loop: unconnected inputs ---------- */

  ghost predicate NodeInputsConnected(catalog: Catalog, n: Node, connected: set<Connector>) {
    Visual(catalog, n).Some? ==>
      forall p :: p in Visual(catalog, n).value.inputs ==> Connector(n.id, p.name) in connected
  }

  method InspectInputs(catalog: Catalog, nodes: seq<Node>, connected: set<Connector>) returns (issues: seq<Issue>)
    ensures forall x :: x in issues ==> x.code == MissingInput
    ensures issues == [] <==> forall n :: n in nodes ==> NodeInputsConnected(catalog, n, connected)
  {
    issues := [];
    for i := 0 to |nodes|
      invariant forall x :: x in issues ==> x.code == MissingInput
      invariant issues == [] <==> forall k :: 0 <= k < i ==> NodeInputsConnected(catalog, nodes[k], connected)
    {
      var n := nodes[i];
      var visual := Visual(catalog, n);
      var inputs := if visual.Some? then visual.value.inputs else [];
      ghost var start := issues;
      for j := 0 to |inputs|
        invariant forall x :: x in issues ==> x.code == MissingInput
        invariant issues == [] <==> start == [] && forall p :: p in inputs[..j] ==> Connector(n.id, p.name) in connected
      {
        assert inputs[..j + 1] == inputs[..j] + [inputs[j]];
        if Connector(n.id, inputs[j].name) !in connected {
          issues := issues + [Issue(MissingInput, Some(n.id))];
        }
      }
      assert inputs[..|inputs|] == inputs;
    }
  }

  /* ---------- fourth loop: topological order ---------- */

  function Count(ids: seq<Id>, v: Id): nat {
    if ids == [] then 0 else Count(ids[..|ids| - 1], v) + (if ids[|ids| - 1] == v then 1 else 0)
  }

  /** Finishing `u` removes exactly its parallel edges from every target's pending count. */
  lemma {:induction false} PendingDrops(edges: seq<Edge>, v: Id, done: set<Id>, u: Id)
    requires u !in done
    ensures Pending(edges, v, done) == Pending(edges, v, done + {u}) + Count(Targets(edges, u), v)
  {
    if edges != [] {
      var init := edges[..|edges| - 1];
      var e := edges[|edges| - 1];
      PendingDrops(init, v, done, u);
      if e.from.node == u {
        assert Targets(edges, u)[..|Targets(init, u)|] == Targets(init, u);
      }
    }
  }

  lemma {:induction false} NothingPending(edges: seq<Edge>, v: Id, done: set<Id>)
    ensures Pending(edges, v, done) == 0 <==> forall e :: e in edges && e.to.node == v ==> e.from.node in done
  {
    if edges != [] {
      var init := edges[..|edges| - 1];
      NothingPending(init, v, done);
      assert edges == init + [edges[|edges| - 1]];
    }
  }

  lemma {:induction false} CountPrefix(ids: seq<Id>, j: nat, v: Id)
    requires j <= |ids|
    ensures Count(ids[..j], v) <= Count(ids, v)
  {
    if j < |ids| {
      assert ids[..|ids| - 1][..j] == ids[..j];
      CountPrefix(ids[..|ids| - 1], j, v);
    } else {
      assert ids[..j] == ids;
    }
  }

  ghost function Members(ids: seq<Id>): set<Id> {
    set x | x in ids
  }

  /** Every source of a queued node stands before it in the queue. */
  ghost predicate SourcesFirst(edges: seq<Edge>, queue: seq<Id>) {
    forall e :: e in edges && e.to.node in queue ==> SourceBeforeTarget(queue, e)
  }

  /** Remaining indegree after the nodes of `done` and the first `j` targets of the next one. */
  ghost predicate Remaining(edges: seq<Edge>, indegree: map<Id, nat>, done: set<Id>, taken: seq<Id>) {
    forall v :: v in indegree ==> indegree[v] + Count(taken, v) == Pending(edges, v, done)
  }

  ghost predicate QueueIsReady(indegree: map<Id, nat>, queue: seq<Id>) {
    && Distinct(queue)
    && (forall v :: v in queue ==> v in indegree)
    && (forall v :: v in indegree ==> (v in queue <==> indegree[v] == 0))
  }

  lemma ReadyStep(edges: seq<Edge>, queue: seq<Id>, done: seq<Id>, u: Id, v: Id)
    requires done + [u] <= queue && v !in queue && u !in done
    requires SourcesFirst(edges, queue)
    requires Pending(edges, v, Members(done) + {u}) == 0
    ensures SourcesFirst(edges, queue + [v])
  {
    NothingPending(edges, v, Members(done) + {u});
    var longer := queue + [v];
    forall e | e in edges && e.to.node in longer ensures SourceBeforeTarget(longer, e) {
      if e.to.node in queue {
        assert SourceBeforeTarget(queue, e);
        var i, j :| 0 <= i < j < |queue| && queue[i] == e.from.node && queue[j] == e.to.node;
        assert longer[i] == e.from.node && longer[j] == e.to.node;
      } else {
        assert e.from.node in done + [u];
        var i :| 0 <= i < |done + [u]| && (done + [u])[i] == e.from.node;
        assert longer[i] == e.from.node && longer[|queue|] == e.to.node;
      }
    }
  }

  lemma ReadyOrNot(indegree: map<Id, nat>, keys: seq<Id>)
    requires Distinct(keys)
    ensures Distinct(ZeroDegree(keys, indegree))
    ensures forall v :: v in ZeroDegree(keys, indegree) <==> v in keys && v in indegree && indegree[v] == 0
  {
    if keys != [] {
      ReadyOrNot(indegree, keys[..|keys| - 1]);
      assert keys == keys[..|keys| - 1] + [keys[|keys| - 1]];
    }
  }

  function ZeroDegree(keys: seq<Id>, indegree: map<Id, nat>): seq<Id> {
    if keys == [] then []
    else
      var rest := ZeroDegree(keys[..|keys| - 1], indegree);
      var v := keys[|keys| - 1];
      if v in indegree && indegree[v] == 0 then rest + [v] else rest
  }

  ghost predicate InnerInvariant(edges: seq<Edge>, ids: set<Id>, queue: seq<Id>, i: nat, indegree: map<Id, nat>, taken: seq<Id>) {
    && indegree.Keys == ids
    && i < |queue|
    && QueueIsReady(indegree, queue)
    && SourcesFirst(edges, queue)
    && Remaining(edges, indegree, Members(queue[..i]), taken)
  }

  lemma {:induction false} CountMember(ids: seq<Id>, j: nat)
    requires j < |ids|
    ensures Count(ids[..j + 1], ids[j]) == Count(ids[..j], ids[j]) + 1
    ensures forall v :: v != ids[j] ==> Count(ids[..j + 1], v) == Count(ids[..j], v)
  {
    assert ids[..j + 1][..j] == ids[..j];
  }

  /** One decrement: the child's count drops, and a child that reaches zero joins the queue. */
  method Release(ghost edges: seq<Edge>, ghost ids: set<Id>, queue: seq<Id>, ghost i: nat, indegree: map<Id, nat>,
                 children: seq<Id>, j: nat)
    returns (queue': seq<Id>, indegree': map<Id, nat>)
    requires j < |children| && children[j] in ids
    requires InnerInvariant(edges, ids, queue, i, indegree, children[..j])
    requires children == Targets(edges, queue[i])
    ensures InnerInvariant(edges, ids, queue', i, indegree', children[..j + 1])
    ensures queue <= queue'
  {
    var child := children[j];
    ghost var u := queue[i];
    ghost var done := Members(queue[..i]);
    assert u !in done;
    CountMember(children, j);
    PendingDrops(edges, child, done, u);
    CountPrefix(children, j + 1, child);
    var degree := indegree[child] - 1;
    indegree' := indegree[child := degree];
    if degree == 0 {
      assert child !in queue;
      assert Pending(edges, child, done + {u}) == 0;
      assert queue[..i] + [u] <= queue;
      ReadyStep(edges, queue, queue[..i], u, child);
      queue' := queue + [child];
    } else {
      queue' := queue;
    }
    assert queue'[..i] == queue[..i];
  }

  ghost predicate EndpointsIn(edges: seq<Edge>, ids: set<Id>) {
    forall e :: e in edges ==> e.from.node in ids && e.to.node in ids
  }

  lemma ReadyAtStart(edges: seq<Edge>, keys: seq<Id>, initial: map<Id, nat>)
    requires Distinct(keys) && initial.Keys == Members(keys)
    requires forall v :: v in initial ==> initial[v] == Pending(edges, v, {})
    ensures OuterInvariant(edges, Members(keys), ZeroDegree(keys, initial), 0, initial)
  {
    ReadyOrNot(initial, keys);
    var queue := ZeroDegree(keys, initial);
    forall k | 0 <= k < |queue| ensures forall e :: e in edges ==> e.to.node != queue[k] {
      NothingPending(edges, queue[k], {});
    }
    assert Members(queue[..0]) == {};
  }

  /** The order is complete exactly when there is no cycle, and then every edge points forward. */
  ghost predicate SortedAsFarAsPossible(edges: seq<Edge>, keys: seq<Id>, order: seq<Id>) {
    && Distinct(order)
    && (|order| == |keys| <==> !HasCycle(edges))
    && (|order| == |keys| ==> Members(order) == Members(keys) && forall e :: e in edges ==> SourceBeforeTarget(order, e))
  }

  method Sort(keys: seq<Id>, next: map<Id, seq<Id>>, initial: map<Id, nat>, ghost edges: seq<Edge>) returns (order: seq<Id>)
    requires Distinct(keys) && Describes(next, initial, Members(keys), edges)
    requires EndpointsIn(edges, Members(keys))
    ensures SortedAsFarAsPossible(edges, keys, order)
  {
    var indegree := initial;
    var queue := ZeroDegree(keys, indegree);
    ReadyAtStart(edges, keys, indegree);
    order := [];
    var i := 0;
    while i < |queue|
      invariant OuterInvariant(edges, Members(keys), queue, i, indegree) && order == queue[..i]
      decreases |Members(keys)| - i
    {
      order, queue, indegree := Visit(edges, Members(keys), order, queue, i, indegree, next);
      i := i + 1;
    }
    Sorted(edges, keys, order, queue, indegree);
  }

  /** One pass of the outer loop: `queue[i]` is emitted and its edges are released. */
  method Visit(ghost edges: seq<Edge>, ghost ids: set<Id>, order: seq<Id>, queue: seq<Id>, i: nat, indegree: map<Id, nat>, next: map<Id, seq<Id>>)
    returns (order': seq<Id>, queue': seq<Id>, indegree': map<Id, nat>)
    requires OuterInvariant(edges, ids, queue, i, indegree) && i < |queue| && order == queue[..i]
    requires EndpointsIn(edges, ids) && ids == next.Keys && forall v :: v in next ==> next[v] == Targets(edges, v)
    ensures OuterInvariant(edges, ids, queue', i + 1, indegree') && order' == queue'[..i + 1]
    ensures i + 1 <= |ids|
  {
    QueueBound(edges, ids, queue, i, indegree);
    var key := queue[i];
    queue', indegree' := ReleaseAll(edges, ids, queue, i, indegree, next[key]);
    order' := order + [key];
  }

  ghost predicate OuterInvariant(edges: seq<Edge>, ids: set<Id>, queue: seq<Id>, i: nat, indegree: map<Id, nat>) {
    && indegree.Keys == ids
    && i <= |queue|
    && QueueIsReady(indegree, queue)
    && SourcesFirst(edges, queue)
    && Remaining(edges, indegree, Members(queue[..i]), [])
  }

  /** The inner loop: every parallel edge out of `queue[i]` is counted once. */
  method ReleaseAll(ghost edges: seq<Edge>, ghost ids: set<Id>, queue: seq<Id>, ghost i: nat, indegree: map<Id, nat>, children: seq<Id>)
    returns (queue': seq<Id>, indegree': map<Id, nat>)
    requires OuterInvariant(edges, ids, queue, i, indegree) && i < |queue|
    requires EndpointsIn(edges, ids) && children == Targets(edges, queue[i])
    ensures i < |queue'| && queue'[..i + 1] == queue[..i] + [queue[i]]
    ensures OuterInvariant(edges, ids, queue', i + 1, indegree')
  {
    queue', indegree' := queue, indegree;
    TargetsAreKeys(edges, queue[i], ids);
    var j := 0;
    while j < |children|
      invariant j <= |children| && queue <= queue'
      invariant InnerInvariant(edges, ids, queue', i, indegree', children[..j])
    {
      queue', indegree' := Release(edges, ids, queue', i, indegree', children, j);
      j := j + 1;
    }
    assert children[..|children|] == children;
    NodeFinished(edges, queue', i, indegree');
  }

  lemma NodeFinished(edges: seq<Edge>, queue: seq<Id>, i: nat, indegree: map<Id, nat>)
    requires i < |queue| && Distinct(queue)
    requires Remaining(edges, indegree, Members(queue[..i]), Targets(edges, queue[i]))
    ensures Remaining(edges, indegree, Members(queue[..i + 1]), [])
  {
    assert Members(queue[..i + 1]) == Members(queue[..i]) + {queue[i]} by {
      assert queue[..i + 1] == queue[..i] + [queue[i]];
    }
    forall v | v in indegree ensures indegree[v] == Pending(edges, v, Members(queue[..i + 1])) {
      PendingDrops(edges, v, Members(queue[..i]), queue[i]);
    }
  }

  lemma QueueBound(edges: seq<Edge>, ids: set<Id>, queue: seq<Id>, i: nat, indegree: map<Id, nat>)
    requires OuterInvariant(edges, ids, queue, i, indegree)
    ensures |queue| <= |ids|
    ensures forall v :: v in queue ==> v in ids
  {
    DistinctSize(queue, ids);
  }

  lemma {:induction false} TargetsAreKeys(edges: seq<Edge>, u: Id, ids: set<Id>)
    requires EndpointsIn(edges, ids)
    ensures forall v :: v in Targets(edges, u) ==> v in ids
  {
    if edges != [] {
      TargetsAreKeys(edges[..|edges| - 1], u, ids);
    }
  }

  lemma SmallerSubset(a: set<Id>, b: set<Id>)
    requires a <= b && |a| < |b|
    ensures b - a != {}
  {
    assert |b| == |a| + |b - a| by { assert b == a + (b - a); }
  }

  /** When the queue runs dry, it holds everything or what is left is a set without a source. */
  lemma Sorted(edges: seq<Edge>, keys: seq<Id>, order: seq<Id>, queue: seq<Id>, indegree: map<Id, nat>)
    requires Distinct(keys) && EndpointsIn(edges, Members(keys))
    requires OuterInvariant(edges, Members(keys), queue, |queue|, indegree) && order == queue[..|queue|]
    ensures SortedAsFarAsPossible(edges, keys, order)
  {
    assert order == queue;
    DistinctSize(queue, Members(keys));
    MembersSize(keys);
    MembersSize(queue);
    assert Members(queue) <= Members(keys);
    if |queue| == |keys| {
      forall e | e in edges ensures SourceBeforeTarget(queue, e) {
        assert e.to.node in Members(keys);
      }
      ForwardOrderIsAcyclic(edges, queue);
    } else {
      var left := Members(keys) - Members(queue);
      SmallerSubset(Members(queue), Members(keys));
      forall v | v in left ensures PredecessorIn(edges, left, v) {
        assert indegree[v] + Count([], v) == Pending(edges, v, Members(queue));
        NothingPending(edges, v, Members(queue));
        var e :| e in edges && e.to.node == v && e.from.node !in Members(queue);
        assert e.from.node in left;
      }
      SourceFreeSetHasCycle(edges, left);
    }
  }

  lemma {:induction false} MembersSize(ids: seq<Id>)
    requires Distinct(ids)
    ensures |Members(ids)| == |ids|
  {
    if ids != [] {
      var init := ids[..|ids| - 1];
      MembersSize(init);
      assert Members(ids) == Members(init) + {ids[|ids| - 1]};
      assert ids[|ids| - 1] !in Members(init);
    }
  }

  /* ---------- the whole inspection ---------- */

  /** The node ids in order of first appearance: the keys of the indegree map. */
  function Keys(nodes: seq<Node>): (r: seq<Id>)
    ensures Distinct(r)
    ensures Members(r) == NodeIds(nodes)
  {
    if nodes == [] then []
    else
      var init := nodes[..|nodes| - 1];
      var n := nodes[|nodes| - 1];
      assert NodeIds(nodes) == NodeIds(init) + {n.id} by { assert nodes == init + [n]; }
      if n.id in Keys(init) then Keys(init) else Keys(init) + [n.id]
  }

  ghost predicate HasIssue(issues: seq<Issue>, code: Code) {
    exists x :: x in issues && x.code == code
  }

  /** Every node id once, each edge's source before its target. */
  ghost predicate ExecutionOrder(g: Graph, order: seq<Id>) {
    && Distinct(order)
    && Members(order) == NodeIds(g.nodes)
    && (forall e :: e in g.edges ==> SourceBeforeTarget(order, e))
  }

  method Inspect(catalog: Catalog, g: Graph) returns (issues: seq<Issue>, order: seq<Id>)
    ensures HasIssue(issues, Cycle) <==> HasCycle(AcceptedEdges(catalog, g.nodes, g.edges))
    ensures issues == [] <==> Executable(catalog, g)
    ensures AllTolerated(g, issues) <==> WellFormed(catalog, g)
    ensures if issues == [] then ExecutionOrder(g, order) else order == []
  {
    var nodeIssues := InspectNodes(catalog, g);
    var scan := InspectEdges(catalog, g);
    var inputIssues := InspectInputs(catalog, g.nodes, scan.connected);
    ghost var accepted := AcceptedEdges(catalog, g.nodes, g.edges);
    var keys := Keys(g.nodes);
    forall e | e in accepted ensures e.from.node in Members(keys) && e.to.node in Members(keys) {
      ProblemIsHard(catalog, g, e);
    }
    order := Sort(keys, scan.next, scan.indegree, accepted);
    var cycleIssues := if |order| != |keys| then [Issue(Cycle, None)] else [];
    issues := nodeIssues + scan.issues + inputIssues + cycleIssues;
    Verdict(catalog, g, nodeIssues, scan, inputIssues, cycleIssues);
    if issues != [] {
      order := [];
    } else {
      AllAccepted(catalog, g.nodes, g.edges);
    }
  }

  lemma Verdict(catalog: Catalog, g: Graph, nodeIssues: seq<Issue>, scan: EdgeScan, inputIssues: seq<Issue>, cycleIssues: seq<Issue>)
    requires NoCycleIssue(nodeIssues)
    requires nodeIssues == [] <==> !Blank(g.name) && g.nodes != [] && CleanNodes(catalog, g.nodes)
    requires AllTolerated(g, nodeIssues) <==> !Blank(g.name) && TolerableNodes(g.schema, catalog, g.nodes)
    requires Scanned(catalog, g, g.edges, scan)
    requires forall x :: x in inputIssues ==> x.code == MissingInput
    requires inputIssues == [] <==> forall n :: n in g.nodes ==> NodeInputsConnected(catalog, n, scan.connected)
    requires cycleIssues == if HasCycle(AcceptedEdges(catalog, g.nodes, g.edges)) then [Issue(Cycle, None)] else []
    ensures var issues := nodeIssues + scan.issues + inputIssues + cycleIssues;
            && (HasIssue(issues, Cycle) <==> HasCycle(AcceptedEdges(catalog, g.nodes, g.edges)))
            && (issues == [] <==> Executable(catalog, g))
            && (AllTolerated(g, issues) <==> WellFormed(catalog, g))
  {
    var issues := nodeIssues + scan.issues + inputIssues + cycleIssues;
    assert forall x :: x in issues <==> x in nodeIssues || x in scan.issues || x in inputIssues || x in cycleIssues;
    if cycleIssues != [] {
      assert cycleIssues[0] in issues;
    }
    ToleratedAppend(g, nodeIssues + scan.issues + inputIssues, cycleIssues);
    ToleratedAppend(g, nodeIssues + scan.issues, inputIssues);
    ToleratedAppend(g, nodeIssues, scan.issues);
    assert AllTolerated(g, scan.issues) <==> scan.issues == [] by {
      if scan.issues != [] {
        assert scan.issues[0] in scan.issues;
      }
    }
    if UniqueIds(g.nodes) {
      SoundMeansWired(catalog, g);
      if scan.issues == [] {
        AllAccepted(catalog, g.nodes, g.edges);
        InputsAgree(catalog, g);
      }
    }
  }

  lemma InputsAgree(catalog: Catalog, g: Graph)
    ensures AllInputsConnected(catalog, g) <==> forall n :: n in g.nodes ==> NodeInputsConnected(catalog, n, TargetsOf(g.edges))
  {
    forall c: Connector ensures ConnectedInput(g.edges, c) <==> c in TargetsOf(g.edges) {
    }
  }

  lemma SoundMeansWired(catalog: Catalog, g: Graph)
    requires UniqueIds(g.nodes)
    ensures SoundEdges(catalog, g.nodes, g.edges) <==>
            (forall e :: e in g.edges ==> Wired(catalog, g.nodes, e)) && UniqueEdgeIds(g.edges) && OneSourcePerInput(g.edges)
  {
    forall e { ProblemFreeIsWired(catalog, g.nodes, e); }
  }

  /** Reading a stored or submitted draft. */
  method ParsePipeline(catalog: Catalog, d: Document) returns (ok: bool)
    ensures ok <==> Acceptable(catalog, d)
  {
    var issues, _ := Inspect(catalog, d.graph);
    ok := && WithinLimits(d.graph)
          && AllTolerated(d.graph, issues)
          && d.layout.Keys == NodeIds(d.graph.nodes)
          && forall id :: id in d.layout ==> InRange(d.layout[id]);
  }
}
