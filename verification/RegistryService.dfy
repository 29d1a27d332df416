/** The registry itself: validation of offered packages, the two transactions, and the installation of a snapshot
    (packages/node-registry/service.ts, packages/pipeline-model/catalog.ts). */
module RegistryService {
  import opened Wrappers
  import opened PipelineModel
  import opened NodePackages
  import opened Registry
  import opened RegistryRuns

  /* ---------- looking things up ---------- */

  method FindRelease(packages: seq<Package>, key: PackageKey) returns (r: Option<Package>)
    ensures r.Some? <==> Published(packages, key)
    ensures r.Some? ==> r.value in packages && r.value.key == key
  {
    for i := 0 to |packages|
      invariant forall j :: 0 <= j < i ==> packages[j].key != key
    {
      if packages[i].key == key {
        return Some(packages[i]);
      }
    }
    return None;
  }

  method FindContract(entries: seq<Entry>, kind: TypeKey) returns (r: Option<Entry>)
    ensures r.None? ==> forall e :: e in entries ==> e.node.kind != kind
    ensures r.Some? ==> r.value in entries && r.value.node.kind == kind
  {
    for i := 0 to |entries|
      invariant forall j :: 0 <= j < i ==> entries[j].node.kind != kind
    {
      if entries[i].node.kind == kind {
        return Some(entries[i]);
      }
    }
    return None;
  }

  /* ---------- validation ---------- */

  /** Each type's owner, read off the entries; the last one wins. */
  ghost predicate OwnersOf(owners: map<Id, Id>, entries: seq<Entry>) {
    && (forall e :: e in entries ==> e.node.kind.name in owners && OwnerOf(e) == Some(owners[e.node.kind.name]))
    && (forall t :: t in owners ==> exists e :: e in entries && e.node.kind.name == t)
  }

  lemma OwnersGrow(owners: map<Id, Id>, entries: seq<Entry>, e: Entry)
    requires OwnersOf(owners, entries) && e.packageRef.Some?
    requires forall d :: d in entries ==> Compatible(d, e)
    ensures OwnersOf(owners[e.node.kind.name := e.packageRef.value.id], entries + [e])
  {
  }

  method CollectOwners(entries: seq<Entry>) returns (owners: map<Id, Id>)
    requires forall e :: e in entries ==> e.packageRef.Some?
    ensures AllCompatible(entries) ==> OwnersOf(owners, entries)
  {
    owners := map[];
    for i := 0 to |entries|
      invariant AllCompatible(entries) ==> OwnersOf(owners, entries[..i])
    {
      var e := entries[i];
      assert entries[..i + 1] == entries[..i] + [e];
      if AllCompatible(entries) {
        assert forall j :: 0 <= j < i ==> Compatible(entries[j], e);
        OwnersGrow(owners, entries[..i], e);
      }
      owners := owners[e.node.kind.name := e.packageRef.value.id];
    }
    assert entries[..|entries|] == entries;
  }

  /** Whether one more entry may join the stored and the accepted ones. */
  ghost predicate MayJoin(catalog: NodeCatalog, seen: seq<Entry>, stored: seq<Entry>, e: Entry) {
    && Compiles(e.node) && !BuiltIn(catalog, e.node.kind.name)
    && (forall i :: 0 <= i < |seen| ==> seen[i].node.kind != e.node.kind && Compatible(seen[i], e))
    && (forall j :: 0 <= j < |stored| ==> Compatible(stored[j], e))
  }

  lemma Joined(catalog: NodeCatalog, seen: seq<Entry>, stored: seq<Entry>, e: Entry)
    requires AdmissibleEntries(catalog, seen, stored) && MayJoin(catalog, seen, stored, e)
    ensures AdmissibleEntries(catalog, seen + [e], stored)
  {
  }

  lemma CannotJoin(catalog: NodeCatalog, offered: seq<Entry>, stored: seq<Entry>, k: nat)
    requires k < |offered| && !MayJoin(catalog, offered[..k], stored, offered[k])
    ensures !AdmissibleEntries(catalog, offered, stored)
  {
    if AdmissibleEntries(catalog, offered, stored) {
      forall i | 0 <= i < k ensures offered[..k][i].node.kind != offered[k].node.kind && Compatible(offered[..k][i], offered[k]) {
        assert offered[..k][i] == offered[i];
      }
      assert MayJoin(catalog, offered[..k], stored, offered[k]);
    }
  }

  /** The owner table stands for the ownership checks against every stored and accepted entry. */
  lemma OwnerTableDecides(owners: map<Id, Id>, entries: seq<Entry>, e: Entry)
    requires OwnersOf(owners, entries) && e.packageRef.Some?
    ensures (e.node.kind.name in owners ==> owners[e.node.kind.name] == e.packageRef.value.id)
            <==> forall d :: d in entries && d.node.kind.name == e.node.kind.name ==> OwnerOf(d) == OwnerOf(e)
  {
    if e.node.kind.name in owners {
      var d :| d in entries && d.node.kind.name == e.node.kind.name;
      assert OwnerOf(d) == Some(owners[e.node.kind.name]);
    }
  }

  /** One contribution: compiled, new in this call, not built in, owned by its package, and unchanged if known. */
  method ValidateNode(catalog: NodeCatalog, e: Entry, identities: set<TypeKey>, owners: map<Id, Id>, stored: seq<Entry>, ghost seen: seq<Entry>)
    returns (ok: bool)
    requires e.packageRef.Some? && AllCompatible(stored) && OwnersOf(owners, stored + seen)
    requires forall k :: k in identities <==> KindSeen(seen, k)
    ensures ok <==> MayJoin(catalog, seen, stored, e)
  {
    var node := e.node;
    if !Compiles(node) {
      return false;
    }
    if node.kind in identities {
      return false;
    }
    if BuiltIn(catalog, node.kind.name) {
      return false;
    }
    OwnerTableDecides(owners, stored + seen, e);
    if node.kind.name in owners && owners[node.kind.name] != e.packageRef.value.id {
      ghost var d :| d in stored + seen && d.node.kind.name == node.kind.name && OwnerOf(d) != OwnerOf(e);
      assert !Compatible(d, e);
      return false;
    }
    var previous := FindContract(stored, node.kind);
    if previous.Some? && previous.value.node != node {
      assert !Compatible(previous.value, e);
      return false;
    }
    ok := true;
    forall j | 0 <= j < |stored| ensures Compatible(stored[j], e) {
      assert stored[j] in stored + seen;
      if stored[j].node.kind == node.kind {
        ghost var i :| 0 <= i < |stored| && stored[i] == previous.value;
        assert Compatible(stored[i], stored[j]);
      }
    }
    forall i | 0 <= i < |seen| ensures seen[i].node.kind != node.kind && Compatible(seen[i], e) {
      assert seen[i] in stored + seen;
    }
  }

  ghost predicate KindSeen(entries: seq<Entry>, k: TypeKey) {
    exists d :: d in entries && d.node.kind == k
  }

  lemma Middle(a: seq<Entry>, b: seq<Entry>, c: seq<Entry>, j: nat)
    requires j < |b|
    ensures var all, seen := a + b + c, a + b[..j];
            |seen| < |all| && all[..|seen|] == seen && all[|seen|] == b[j] && a + b[..j + 1] == seen + [b[j]]
  {
  }

  lemma Splits(offered: seq<Package>, i: nat)
    requires i < |offered|
    ensures offered == (offered[..i] + [offered[i]]) + offered[i + 1..]
  {
  }

  lemma CompiledParts(a: seq<Package>, p: Package, c: seq<Package>)
    ensures CompiledAll((a + [p]) + c) == (CompiledAll(a) + Compiled(p)) + CompiledAll(c)
  {
    MoreCompiled(a + [p], c);
    CompiledLast(a, p);
  }

  lemma CompiledAround(offered: seq<Package>, i: nat)
    requires i < |offered|
    ensures CompiledAll(offered) == CompiledAll(offered[..i]) + Compiled(offered[i]) + CompiledAll(offered[i + 1..])
  {
    Splits(offered, i);
    CompiledParts(offered[..i], offered[i], offered[i + 1..]);
  }

  lemma NextEntry(offered: seq<Package>, i: nat, j: nat)
    requires i < |offered| && j < |offered[i].nodes|
    ensures var all := CompiledAll(offered);
            var seen := CompiledAll(offered[..i]) + Compiled(offered[i])[..j];
            && |seen| < |all| && all[..|seen|] == seen && all[|seen|] == Compiled(offered[i])[j]
            && CompiledAll(offered[..i]) + Compiled(offered[i])[..j + 1] == seen + [all[|seen|]]
  {
    CompiledAround(offered, i);
    Middle(CompiledAll(offered[..i]), Compiled(offered[i]), CompiledAll(offered[i + 1..]), j);
  }

  /** The nodes of one package, against everything accepted before it. */
  method ValidateNodes(catalog: NodeCatalog, offered: seq<Package>, i: nat, stored: seq<Entry>, identities0: set<TypeKey>, owners0: map<Id, Id>)
    returns (ok: bool, identities: set<TypeKey>, owners: map<Id, Id>)
    requires i < |offered| && AllCompatible(stored)
    requires OwnersOf(owners0, stored + CompiledAll(offered[..i]))
    requires forall k :: k in identities0 <==> KindSeen(CompiledAll(offered[..i]), k)
    requires AdmissibleEntries(catalog, CompiledAll(offered[..i]), stored)
    ensures ok ==> AdmissibleEntries(catalog, CompiledAll(offered[..i + 1]), stored)
    ensures ok ==> OwnersOf(owners, stored + CompiledAll(offered[..i + 1]))
    ensures ok ==> forall k :: k in identities <==> KindSeen(CompiledAll(offered[..i + 1]), k)
    ensures !ok ==> !AdmissibleEntries(catalog, CompiledAll(offered), stored)
  {
    identities, owners := identities0, owners0;
    var p := offered[i];
    ghost var before := CompiledAll(offered[..i]);
    ghost var seen := before;
    assert before + Compiled(p)[..0] == before;
    for j := 0 to |p.nodes|
      invariant seen == before + Compiled(p)[..j]
      invariant AdmissibleEntries(catalog, seen, stored) && OwnersOf(owners, stored + seen)
      invariant forall k :: k in identities <==> KindSeen(seen, k)
    {
      var e := Entry(p.nodes[j], Some(p.key));
      NextEntry(offered, i, j);
      var fine := ValidateNode(catalog, e, identities, owners, stored, seen);
      if !fine {
        CannotJoin(catalog, CompiledAll(offered), stored, |seen|);
        return false, identities, owners;
      }
      Joined(catalog, seen, stored, e);
      OwnersGrow(owners, stored + seen, e);
      assert stored + seen + [e] == stored + (seen + [e]);
      identities, owners := identities + {e.node.kind}, owners[e.node.kind.name := p.key.id];
      KindsGrow(seen, e);
      seen := seen + [e];
    }
    assert Compiled(p)[..|p.nodes|] == Compiled(p);
    MoreCompiled(offered[..i], [p]);
    OneCompiled(p);
    assert offered[..i + 1] == offered[..i] + [p];
    ok := true;
  }

  lemma KindsGrow(seen: seq<Entry>, e: Entry)
    ensures forall k :: KindSeen(seen + [e], k) <==> k == e.node.kind || KindSeen(seen, k)
  {
    assert e in seen + [e];
    assert forall d :: d in seen + [e] <==> d in seen || d == e;
  }

  /** Accepts exactly what may join a consistent store. */
  method ValidatePackages(catalog: NodeCatalog, offered: seq<Package>, packages: seq<Package>) returns (ok: bool)
    requires DistinctReleases(packages) && AllCompatible(CompiledAll(packages))
    ensures ok <==> Admissible(catalog, offered, packages)
  {
    var stored := CompiledAll(packages);
    forall e | e in stored ensures e.packageRef.Some? {
      ghost var p := EntryOfPackage(packages, e);
    }
    var owners := CollectOwners(stored);
    var identities: set<TypeKey> := {};
    assert stored + CompiledAll(offered[..0]) == stored;
    for i := 0 to |offered|
      invariant AdmissibleEntries(catalog, CompiledAll(offered[..i]), stored) && OwnersOf(owners, stored + CompiledAll(offered[..i]))
      invariant forall k :: k in identities <==> KindSeen(CompiledAll(offered[..i]), k)
      invariant forall k, j :: 0 <= k < i && 0 <= j < |packages| ==> SameRelease(packages[j], offered[k])
    {
      var known := FindRelease(packages, offered[i].key);
      if known.Some? && known.value != offered[i] {
        assert exists j :: 0 <= j < |packages| && packages[j] == known.value && !SameRelease(packages[j], offered[i]);
        return false;
      }
      var fine;
      fine, identities, owners := ValidateNodes(catalog, offered, i, stored, identities, owners);
      if !fine {
        return false;
      }
    }
    assert offered[..|offered|] == offered;
    ok := true;
  }

  /* ---------- storing and installing ---------- */

  method StorePackages(packages: seq<Package>, offered: seq<Package>) returns (next: seq<Package>)
    ensures next == Stored(packages, offered)
  {
    next := packages;
    for i := 0 to |offered|
      invariant next == Stored(packages, offered[..i])
    {
      assert offered[..i + 1][..i] == offered[..i];
      var known := FindRelease(next, offered[i].key);
      if known.None? {
        next := next + [offered[i]];
      }
    }
    assert offered[..|offered|] == offered;
  }

  method DropSiblings(active: seq<PackageKey>, packages: seq<Package>, id: Id) returns (next: seq<PackageKey>)
    ensures next == WithoutSiblings(active, packages, id)
  {
    next := [];
    for i := 0 to |active|
      invariant next == WithoutSiblings(active[..i], packages, id)
    {
      assert active[..i + 1][..i] == active[..i];
      if !(active[i].id == id && Published(packages, active[i])) {
        next := next + [active[i]];
      }
    }
    assert active[..|active|] == active;
  }

  method SetVersions(versions: map<TypeKey, Entry>, items: seq<Entry>) returns (next: map<TypeKey, Entry>)
    ensures next == WithVersions(versions, items)
  {
    next := versions;
    for i := 0 to |items|
      invariant next == WithVersions(versions, items[..i])
    {
      assert items[..i + 1][..i] == items[..i];
      next := next[items[i].node.kind := items[i]];
    }
    assert items[..|items|] == items;
  }

  method SetLatest(latest: map<Id, Entry>, items: seq<Entry>) returns (next: map<Id, Entry>)
    ensures next == WithLatest(latest, items)
  {
    next := latest;
    for i := 0 to |items|
      invariant next == WithLatest(latest, items[..i])
    {
      assert items[..i + 1][..i] == items[..i];
      next := next[items[i].node.kind.name := items[i]];
    }
    assert items[..|items|] == items;
  }

  class NodeRegistry {
    const builtins: seq<Entry>
    var state: CatalogState
    var catalog: NodeCatalog

    /** The stored packages are consistent with one another; every transaction keeps this. */
    ghost predicate Consistent()
      reads this
    {
      DistinctReleases(state.packages) && AllCompatible(CompiledAll(state.packages))
    }

    constructor (builtins: seq<Entry>)
      ensures state == EmptyState && catalog == Boot(builtins) && this.builtins == builtins && Consistent()
    {
      this.builtins, state := builtins, EmptyState;
      var versions := SetVersions(map[], builtins);
      var latest := SetLatest(map[], builtins);
      catalog := NodeCatalog(versions, latest);
    }

    lemma StoredIsConsistent(offered: seq<Package>)
      requires Consistent() && Admissible(catalog, offered, state.packages)
      ensures DistinctReleases(Stored(state.packages, offered)) && AllCompatible(CompiledAll(Stored(state.packages, offered)))
    {
      var more := StoredAppends(state.packages, offered);
      MoreCompiled(state.packages, more);
      CompatibleTogether(CompiledAll(state.packages), CompiledAll(offered), CompiledAll(more), catalog);
    }

    /** Takes over a previewed release exactly when the preview still holds. */
    method Activate(a: Activation) returns (accepted: bool)
      requires Consistent()
      modifies this`state
      ensures accepted <==> MayActivate(catalog, old(state), a)
      ensures state == if accepted then Activated(old(state), a.package) else old(state)
      ensures Consistent()
    {
      if state.revision != a.revision {
        return false;
      }
      var fine := ValidatePackages(catalog, [a.package], state.packages);
      if !fine || Replacing(state, a.package) != a.replacing {
        return false;
      }
      StoredIsConsistent([a.package]);
      var packages := StorePackages(state.packages, [a.package]);
      var active := DropSiblings(state.active, packages, a.package.key.id);
      state := CatalogState(state.revision + 1, packages, active + [a.package.key]);
      accepted := true;
    }

    /** Stores what the loader offers and makes exactly that active. */
    method Reload(offered: seq<Package>) returns (accepted: bool)
      requires Consistent()
      modifies this`state
      ensures accepted <==> Admissible(catalog, offered, old(state).packages)
      ensures state == if accepted then Reloaded(old(state), offered) else old(state)
      ensures Consistent()
    {
      accepted := ValidatePackages(catalog, offered, state.packages);
      if accepted {
        StoredIsConsistent(offered);
        var packages := StorePackages(state.packages, offered);
        state := CatalogState(state.revision + 1, packages, KeysOf(offered));
      }
    }

    /** Installs a committed snapshot: old versions stay, active packages come last. */
    method Install(snapshot: CatalogState)
      modifies this`catalog
      ensures catalog == Installed(builtins, old(catalog), snapshot)
    {
      var versions := SetVersions(catalog.versions, CompiledAll(snapshot.packages));
      var latest := SetLatest(map[], builtins);
      latest := SetLatest(latest, CompiledAll(ActivePackages(snapshot.packages, snapshot.active)));
      catalog := NodeCatalog(versions, latest);
    }
  }
}
