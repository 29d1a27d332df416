/** Packages of node contributions, and which of them compile (packages/node-registry/contracts.ts). */
module NodePackages {
  import opened Wrappers
  import opened PipelineModel

  datatype Image = Image(repository: Id, digest: Id)

  datatype ExecutionKind = Reference | Task | Service | External

  datatype Execution = Execution(kind: ExecutionKind, adapter: Id, image: Option<Image>, mutableFields: seq<Id>, checkpoint: bool)

  datatype FieldKind =
    | TextField(maxLength: Option<nat>)
    | NumberField(minimum: Option<real>, maximum: Option<real>, integer: bool)
    | SelectField(choices: seq<string>)

  datatype Field = Field(name: Id, kind: FieldKind, needed: bool)

  datatype Contribution = Contribution(kind: TypeKey, title: string, ports: Ports, fields: seq<Field>, defaults: Config, execution: Execution)

  datatype PackageKey = PackageKey(id: Id, version: Id)

  datatype Package = Package(key: PackageKey, nodes: seq<Contribution>)

  predicate Fits(f: FieldKind, v: Value) {
    match f
    case TextField(max) => v.Text? && |v.text| <= (if max.Some? then max.value else 1000)
    case NumberField(min, max, integer) =>
      && v.Number? && (min.Some? ==> min.value <= v.number) && (max.Some? ==> v.number <= max.value)
      && (integer ==> v.number.Floor as real == v.number)
    case SelectField(choices) => v.Text? && v.text in choices
  }

  /** A configuration of exactly the declared fields, each with a fitting value. */
  predicate Configures(fields: seq<Field>, config: Config) {
    && (forall k :: k in config ==> exists f :: f in fields && f.name == k)
    && (forall f :: f in fields ==> if f.name in config then Fits(f.kind, config[f.name]) else !f.needed)
  }

  predicate DistinctPorts(ports: seq<Port>) {
    forall i, j :: 0 <= i < j < |ports| ==> ports[i].name != ports[j].name
  }

  predicate DistinctFields(fields: seq<Field>) {
    forall i, j :: 0 <= i < j < |fields| ==> fields[i].name != fields[j].name
  }

  predicate Compiles(n: Contribution) {
    && DistinctFields(n.fields) && DistinctPorts(n.ports.inputs) && DistinctPorts(n.ports.outputs)
    && (forall f :: f in n.fields && f.kind.SelectField? ==> f.kind.choices != [])
    && Configures(n.fields, n.defaults)
    && (forall m :: m in n.execution.mutableFields ==> exists f :: f in n.fields && f.name == m)
  }
}
