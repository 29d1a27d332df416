/** The pipeline graph and its catalog of node types
    (packages/pipeline-model/index.ts, packages/pipeline-model/catalog.ts). */
module PipelineModel {
  import opened Wrappers

  /** Identifiers are compared for equality only. */
  datatype Id = Id(text: string)

  datatype ArtifactKind = Dataset | Model | Compute | Evaluation | Endpoint | AgentReport

  datatype Port = Port(name: Id, title: string, kind: ArtifactKind)

  datatype Ports = Ports(inputs: seq<Port>, outputs: seq<Port>)

  datatype Value = Text(text: string) | Number(number: real)

  type Config = map<Id, Value>

  datatype TypeKey = TypeKey(name: Id, version: Id)

  /** `accepts` stands for the node type's configuration schema. */
  datatype Definition = Definition(ports: Ports, reference: bool, accepts: Config -> bool)

  datatype Catalog = Catalog(versions: map<TypeKey, Definition>)

  datatype Binding = Binding(kind: Id, resource: Id)

  datatype Node = Node(id: Id, kind: TypeKey, title: string, config: Config,
                       packageRef: Option<TypeKey>, snapshot: Option<Ports>, binding: Option<Binding>)

  datatype Connector = Connector(node: Id, port: Id)

  datatype Edge = Edge(id: Id, from: Connector, to: Connector)

  datatype Schema = PrototypeV1 | PipelineV2

  datatype Graph = Graph(id: Id, schema: Schema, name: string, nodes: seq<Node>, edges: seq<Edge>)

  datatype Position = Position(x: real, y: real, pinned: Option<bool>)

  type Layout = map<Id, Position>

  /** Stored coordinates are bounded. */
  predicate InRange(p: Position) {
    -100000.0 <= p.x <= 100000.0 && -100000.0 <= p.y <= 100000.0
  }

  datatype Document = Document(graph: Graph, layout: Layout)

  /** The binding kind each built-in type expects. */
  function BindingKind(typeName: Id): Option<Id> {
    match typeName.text
    case "dataset" => Some(Id("dataset-version"))
    case "model" => Some(Id("model-import"))
    case "training" => Some(Id("training-draft"))
    case "evaluation" => Some(Id("evaluation-suite"))
    case "deployment" => Some(Id("serving-binding"))
    case "agent" => Some(Id("navigator-session"))
    case "compute" => Some(Id("server-registration"))
    case _ => None
  }

  function Lookup(catalog: Catalog, kind: TypeKey): Option<Definition> {
    if kind in catalog.versions then Some(catalog.versions[kind]) else None
  }

  /** A pinned port snapshot takes precedence over the installed contract. */
  function Visual(catalog: Catalog, node: Node): Option<Ports> {
    match Lookup(catalog, node.kind)
    case Some(known) => Some(if node.snapshot.Some? then node.snapshot.value else known.ports)
    case None => node.snapshot
  }

  function FindPort(ports: seq<Port>, name: Id): Option<Port> {
    if ports == [] then None
    else if ports[0].name == name then Some(ports[0])
    else FindPort(ports[1..], name)
  }

  /** `nodes.find(n => n.id === id)`: the first node with this id. */
  function FindNode(nodes: seq<Node>, id: Id): (r: Option<Node>)
    ensures r.Some? ==> r.value in nodes && r.value.id == id
    ensures r.None? <==> forall n :: n in nodes ==> n.id != id
  {
    if nodes == [] then None
    else if nodes[0].id == id then Some(nodes[0])
    else FindNode(nodes[1..], id)
  }

  ghost predicate UniqueIds(nodes: seq<Node>) {
    forall i, j :: 0 <= i < j < |nodes| ==> nodes[i].id != nodes[j].id
  }

  function NodeIds(nodes: seq<Node>): set<Id> {
    set n | n in nodes :: n.id
  }

  lemma {:induction false} FindFirst(nodes: seq<Node>, i: nat)
    requires i < |nodes|
    requires forall j :: 0 <= j < i ==> nodes[j].id != nodes[i].id
    ensures FindNode(nodes, nodes[i].id) == Some(nodes[i])
  {
    if i > 0 {
      assert nodes[0].id != nodes[i].id;
      FindFirst(nodes[1..], i - 1);
    }
  }

  /** Output kind at one end of an edge, input kind at the other. */
  function OutputKind(catalog: Catalog, node: Option<Node>, port: Id): Option<ArtifactKind> {
    if node.None? || Visual(catalog, node.value).None? then None
    else
      match FindPort(Visual(catalog, node.value).value.outputs, port)
      case Some(p) => Some(p.kind)
      case None => None
  }

  function InputKind(catalog: Catalog, node: Option<Node>, port: Id): Option<ArtifactKind> {
    if node.None? || Visual(catalog, node.value).None? then None
    else
      match FindPort(Visual(catalog, node.value).value.inputs, port)
      case Some(p) => Some(p.kind)
      case None => None
  }

  /** An edge joins two existing nodes on existing ports of one kind. */
  ghost predicate Wired(catalog: Catalog, nodes: seq<Node>, e: Edge) {
    var output := OutputKind(catalog, FindNode(nodes, e.from.node), e.from.port);
    var input := InputKind(catalog, FindNode(nodes, e.to.node), e.to.port);
    output.Some? && input == output
  }

  ghost predicate UniqueEdgeIds(edges: seq<Edge>) {
    forall i, j :: 0 <= i < j < |edges| ==> edges[i].id != edges[j].id
  }

  ghost predicate OneSourcePerInput(edges: seq<Edge>) {
    forall i, j :: 0 <= i < j < |edges| ==> edges[i].to != edges[j].to
  }
}
