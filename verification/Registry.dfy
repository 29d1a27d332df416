/** The node catalog and the registry that feeds it (packages/node-registry/service.ts, packages/pipeline-model/catalog.ts). */
module Registry {
  import opened Wrappers
  import opened PipelineModel
  import opened NodePackages

  /** A contribution under the package it was compiled for; built-in definitions have no package. */
  datatype Entry = Entry(node: Contribution, packageRef: Option<PackageKey>)

  /** Every version ever installed, and the definition offered for new nodes of a type. */
  datatype NodeCatalog = NodeCatalog(versions: map<TypeKey, Entry>, latest: map<Id, Entry>)

  datatype CatalogState = CatalogState(revision: nat, packages: seq<Package>, active: seq<PackageKey>)

  /* ---------- installing a snapshot ---------- */

  function Compiled(p: Package): seq<Entry> {
    seq(|p.nodes|, i requires 0 <= i < |p.nodes| => Entry(p.nodes[i], Some(p.key)))
  }

  function CompiledAll(packages: seq<Package>): seq<Entry> {
    if packages == [] then [] else CompiledAll(packages[..|packages| - 1]) + Compiled(packages[|packages| - 1])
  }

  function ActivePackages(packages: seq<Package>, active: seq<PackageKey>): seq<Package> {
    if packages == [] then []
    else
      var rest := ActivePackages(packages[..|packages| - 1], active);
      if packages[|packages| - 1].key in active then rest + [packages[|packages| - 1]] else rest
  }

  function WithVersions(versions: map<TypeKey, Entry>, items: seq<Entry>): map<TypeKey, Entry> {
    if items == [] then versions
    else WithVersions(versions, items[..|items| - 1])[items[|items| - 1].node.kind := items[|items| - 1]]
  }

  function WithLatest(latest: map<Id, Entry>, items: seq<Entry>): map<Id, Entry> {
    if items == [] then latest
    else WithLatest(latest, items[..|items| - 1])[items[|items| - 1].node.kind.name := items[|items| - 1]]
  }

  /** Old versions stay; the latest ones are the built-ins, then those of active packages. */
  function Installed(builtins: seq<Entry>, catalog: NodeCatalog, state: CatalogState): NodeCatalog {
    NodeCatalog(WithVersions(catalog.versions, CompiledAll(state.packages)),
                WithLatest(WithLatest(map[], builtins), CompiledAll(ActivePackages(state.packages, state.active))))
  }

  function Boot(builtins: seq<Entry>): NodeCatalog {
    NodeCatalog(WithVersions(map[], builtins), WithLatest(map[], builtins))
  }

  /* ---------- what a package must satisfy ---------- */

  predicate Published(packages: seq<Package>, key: PackageKey) {
    exists i :: 0 <= i < |packages| && packages[i].key == key
  }

  /** The same package version has the same content. */
  predicate SameRelease(p: Package, q: Package) {
    p.key == q.key ==> p == q
  }

  /** Types keep their owner and versions of types their contract. */
  predicate Compatible(a: Entry, b: Entry) {
    && (a.node.kind.name == b.node.kind.name ==> OwnerOf(a) == OwnerOf(b))
    && (a.node.kind == b.node.kind ==> a.node == b.node)
  }

  function OwnerOf(e: Entry): Option<Id> {
    if e.packageRef.Some? then Some(e.packageRef.value.id) else None
  }

  /** A type that the catalog now offers without a package is built in. */
  predicate BuiltIn(catalog: NodeCatalog, name: Id) {
    name in catalog.latest && catalog.latest[name].packageRef.None?
  }

  /** The packages may join the stored ones: releases immutable, built-ins untouched, one owner per type, one contract
      per type version, no type version offered twice. */
  ghost predicate Admissible(catalog: NodeCatalog, offered: seq<Package>, stored: seq<Package>) {
    && (forall i, j :: 0 <= i < |offered| && 0 <= j < |stored| ==> SameRelease(stored[j], offered[i]))
    && AdmissibleEntries(catalog, CompiledAll(offered), CompiledAll(stored))
  }

  ghost predicate AdmissibleEntries(catalog: NodeCatalog, offered: seq<Entry>, stored: seq<Entry>) {
    && (forall i :: 0 <= i < |offered| ==> Compiles(offered[i].node) && !BuiltIn(catalog, offered[i].node.kind.name))
    && (forall i, j :: 0 <= i < j < |offered| ==> offered[i].node.kind != offered[j].node.kind && Compatible(offered[i], offered[j]))
    && (forall i, j :: 0 <= i < |offered| && 0 <= j < |stored| ==> Compatible(stored[j], offered[i]))
  }

  ghost predicate AllCompatible(entries: seq<Entry>) {
    forall i, j :: 0 <= i < |entries| && 0 <= j < |entries| ==> Compatible(entries[i], entries[j])
  }

  ghost predicate DistinctReleases(packages: seq<Package>) {
    forall i, j :: 0 <= i < j < |packages| ==> packages[i].key != packages[j].key
  }

  /* ---------- the transactions ---------- */

  /** Packages not stored yet are stored, in order; the first of two with the same key wins. */
  function Stored(packages: seq<Package>, offered: seq<Package>): seq<Package> {
    if offered == [] then packages
    else
      var rest := Stored(packages, offered[..|offered| - 1]);
      var p := offered[|offered| - 1];
      if Published(rest, p.key) then rest else rest + [p]
  }

  function WithoutSiblings(active: seq<PackageKey>, packages: seq<Package>, id: Id): seq<PackageKey> {
    if active == [] then []
    else
      var rest := WithoutSiblings(active[..|active| - 1], packages, id);
      var key := active[|active| - 1];
      if key.id == id && Published(packages, key) then rest else rest + [key]
  }

  function KeysOf(packages: seq<Package>): seq<PackageKey> {
    seq(|packages|, i requires 0 <= i < |packages| => packages[i].key)
  }

  /** The active releases an activation would replace. */
  function Replacing(state: CatalogState, p: Package): seq<PackageKey> {
    KeysOf(ActivePackages(Siblings(state.packages, p.key.id), state.active))
  }

  function Siblings(packages: seq<Package>, id: Id): seq<Package> {
    if packages == [] then []
    else
      var rest := Siblings(packages[..|packages| - 1], id);
      if packages[|packages| - 1].key.id == id then rest + [packages[|packages| - 1]] else rest
  }

  datatype Activation = Activation(revision: nat, package: Package, replacing: seq<PackageKey>)

  ghost predicate MayActivate(catalog: NodeCatalog, state: CatalogState, a: Activation) {
    state.revision == a.revision && Admissible(catalog, [a.package], state.packages) && Replacing(state, a.package) == a.replacing
  }

  function Activated(state: CatalogState, p: Package): CatalogState {
    var packages := Stored(state.packages, [p]);
    CatalogState(state.revision + 1, packages, WithoutSiblings(state.active, packages, p.key.id) + [p.key])
  }

  function Reloaded(state: CatalogState, offered: seq<Package>): CatalogState {
    CatalogState(state.revision + 1, Stored(state.packages, offered), KeysOf(offered))
  }

  /* ---------- the registry under any sequence of operations ---------- */

  /** The store, the snapshots committed so far, and the catalog of the running process. */
  datatype Machine = Machine(state: CatalogState, committed: seq<CatalogState>, catalog: NodeCatalog)

  /** Installs happen after the commit, in any order; a restart installs what is stored. */
  datatype Action = Activate(activation: Activation) | Reload(offered: seq<Package>) | Install(snapshot: nat) | Restart

  ghost function Apply(builtins: seq<Entry>, m: Machine, action: Action): Machine {
    match action
    case Activate(a) =>
      if !MayActivate(m.catalog, m.state, a) then m
      else m.(state := Activated(m.state, a.package), committed := m.committed + [Activated(m.state, a.package)])
    case Reload(offered) =>
      if !Admissible(m.catalog, offered, m.state.packages) then m
      else m.(state := Reloaded(m.state, offered), committed := m.committed + [Reloaded(m.state, offered)])
    case Install(k) => if k < |m.committed| then m.(catalog := Installed(builtins, m.catalog, m.committed[k])) else m
    case Restart => m.(catalog := Installed(builtins, Boot(builtins), m.state))
  }

  const EmptyState := CatalogState(0, [], [])

  ghost function RunAll(builtins: seq<Entry>, actions: seq<Action>): Machine {
    if actions == [] then Machine(EmptyState, [], Boot(builtins))
    else Apply(builtins, RunAll(builtins, actions[..|actions| - 1]), actions[|actions| - 1])
  }
}
