/** Over any sequence of activations, reloads, installs and restarts, contracts never change, every type keeps one
    owner, and built-ins stay (packages/node-registry/service.ts, packages/pipeline-model/catalog.ts). */
module RegistryRuns {
  import opened PipelineModel
  import opened NodePackages
  import opened Registry

  /* ---------- lists of entries ---------- */

  lemma CompiledLast(packages: seq<Package>, p: Package)
    ensures CompiledAll(packages + [p]) == CompiledAll(packages) + Compiled(p)
  {
    assert (packages + [p])[..|packages|] == packages;
  }

  lemma Associates(a: seq<Entry>, b: seq<Entry>, c: seq<Entry>)
    ensures (a + b) + c == a + (b + c)
  {
  }

  lemma {:induction false} MoreCompiled(packages: seq<Package>, more: seq<Package>)
    ensures CompiledAll(packages + more) == CompiledAll(packages) + CompiledAll(more)
  {
    if more == [] {
      assert packages + more == packages;
    } else {
      var init, last := more[..|more| - 1], more[|more| - 1];
      MoreCompiled(packages, init);
      assert packages + more == (packages + init) + [last];
      CompiledLast(packages + init, last);
      Associates(CompiledAll(packages), CompiledAll(init), Compiled(last));
    }
  }

  lemma OneCompiled(p: Package)
    ensures CompiledAll([p]) == Compiled(p)
  {
    assert [p][..0] == [];
  }

  lemma {:induction false} ActiveAreStored(packages: seq<Package>, active: seq<PackageKey>, p: Package)
    requires p in ActivePackages(packages, active)
    ensures p in packages
  {
    if p !in ActivePackages(packages[..|packages| - 1], active) {
      assert p == packages[|packages| - 1];
    } else {
      ActiveAreStored(packages[..|packages| - 1], active, p);
    }
  }

  lemma {:induction false} EntryOfPackage(packages: seq<Package>, e: Entry) returns (p: Package)
    requires e in CompiledAll(packages)
    ensures p in packages && e in Compiled(p)
  {
    var last := packages[|packages| - 1];
    if e in Compiled(last) {
      p := last;
    } else {
      p := EntryOfPackage(packages[..|packages| - 1], e);
    }
  }

  lemma {:induction false} PackageHasEntry(packages: seq<Package>, p: Package, e: Entry)
    requires p in packages && e in Compiled(p)
    ensures e in CompiledAll(packages)
  {
    if p != packages[|packages| - 1] {
      PackageHasEntry(packages[..|packages| - 1], p, e);
    }
  }

  lemma ActiveEntriesAreStored(packages: seq<Package>, active: seq<PackageKey>, e: Entry)
    requires e in CompiledAll(ActivePackages(packages, active))
    ensures e in CompiledAll(packages)
  {
    var p := EntryOfPackage(ActivePackages(packages, active), e);
    ActiveAreStored(packages, active, p);
    PackageHasEntry(packages, p, e);
  }

  /** A version is what the items say last, or else what it was. */
  lemma {:induction false} VersionFound(versions: map<TypeKey, Entry>, items: seq<Entry>, k: TypeKey)
    ensures k in versions ==> k in WithVersions(versions, items)
    ensures forall e :: e in items && e.node.kind == k ==> k in WithVersions(versions, items)
    ensures k in WithVersions(versions, items) ==>
              var e := WithVersions(versions, items)[k]; (e in items && e.node.kind == k) || (k in versions && e == versions[k])
  {
    if items != [] {
      VersionFound(versions, items[..|items| - 1], k);
      assert forall e :: e in items <==> e in items[..|items| - 1] || e == items[|items| - 1];
    }
  }

  lemma {:induction false} LatestFound(latest: map<Id, Entry>, items: seq<Entry>, t: Id)
    ensures t in latest ==> t in WithLatest(latest, items)
    ensures forall e :: e in items && e.node.kind.name == t ==> t in WithLatest(latest, items)
    ensures t in WithLatest(latest, items) ==>
              var e := WithLatest(latest, items)[t]; (e in items && e.node.kind.name == t) || (t in latest && e == latest[t])
    ensures (forall e :: e in items ==> e.node.kind.name != t) && t in latest ==> WithLatest(latest, items)[t] == latest[t]
  {
    if items != [] {
      LatestFound(latest, items[..|items| - 1], t);
      assert forall e :: e in items <==> e in items[..|items| - 1] || e == items[|items| - 1];
    }
  }

  /* ---------- the stored packages ---------- */

  ghost predicate BuiltinType(builtins: seq<Entry>, t: Id) {
    exists e :: e in builtins && e.node.kind.name == t
  }

  ghost predicate NoBuiltin(builtins: seq<Entry>, entries: seq<Entry>) {
    forall e :: e in entries ==> !BuiltinType(builtins, e.node.kind.name) && e.packageRef.Some?
  }

  ghost predicate StateOk(builtins: seq<Entry>, packages: seq<Package>) {
    DistinctReleases(packages) && AllCompatible(CompiledAll(packages)) && NoBuiltin(builtins, CompiledAll(packages))
  }

  /** What is stored is what was stored, followed by offered packages not stored before. */
  lemma {:induction false} StoredAppends(packages: seq<Package>, offered: seq<Package>) returns (more: seq<Package>)
    requires DistinctReleases(packages)
    ensures Stored(packages, offered) == packages + more && DistinctReleases(packages + more)
    ensures forall e :: e in CompiledAll(more) ==> e in CompiledAll(offered)
    ensures forall p :: p in more ==> p in offered
    decreases |offered|
  {
    if offered == [] {
      more := [];
      assert packages + more == packages;
    } else {
      var init, p := offered[..|offered| - 1], offered[|offered| - 1];
      more := StoredAppends(packages, init);
      if !Published(packages + more, p.key) {
        MoreCompiled(more, [p]);
        OneCompiled(p);
        assert packages + more + [p] == packages + (more + [p]);
        more := more + [p];
      }
    }
  }

  lemma CompatibleTogether(stored: seq<Entry>, offered: seq<Entry>, more: seq<Entry>, catalog: NodeCatalog)
    requires AllCompatible(stored) && AdmissibleEntries(catalog, offered, stored)
    requires forall e :: e in more ==> e in offered
    ensures AllCompatible(stored + more)
  {
    forall i, j | 0 <= i < |stored + more| && 0 <= j < |stored + more| ensures Compatible((stored + more)[i], (stored + more)[j]) {
      CompatiblePair(stored, offered, catalog, (stored + more)[i], (stored + more)[j]);
    }
  }

  lemma CompatiblePair(stored: seq<Entry>, offered: seq<Entry>, catalog: NodeCatalog, a: Entry, b: Entry)
    requires AllCompatible(stored) && AdmissibleEntries(catalog, offered, stored)
    requires (a in stored || a in offered) && (b in stored || b in offered)
    ensures Compatible(a, b)
  {
    if a in stored && b in stored {
      var i, j :| 0 <= i < |stored| && 0 <= j < |stored| && stored[i] == a && stored[j] == b;
      assert Compatible(stored[i], stored[j]);
    } else if a in stored {
      var i, j :| 0 <= i < |offered| && 0 <= j < |stored| && offered[i] == b && stored[j] == a;
      assert Compatible(stored[j], offered[i]);
    } else if b in stored {
      var i, j :| 0 <= i < |offered| && 0 <= j < |stored| && offered[i] == a && stored[j] == b;
      assert Compatible(stored[j], offered[i]);
    } else {
      var i, j :| 0 <= i < |offered| && 0 <= j < |offered| && offered[i] == a && offered[j] == b;
      assert i < j ==> Compatible(offered[i], offered[j]);
      assert j < i ==> Compatible(offered[j], offered[i]);
    }
  }

  /** The running catalog still offers every built-in type as built in. */
  ghost predicate OffersBuiltins(builtins: seq<Entry>, catalog: NodeCatalog) {
    forall t :: BuiltinType(builtins, t) ==> BuiltIn(catalog, t)
  }

  lemma OfferedAreNotBuiltin(builtins: seq<Entry>, catalog: NodeCatalog, offered: seq<Package>, stored: seq<Package>)
    requires OffersBuiltins(builtins, catalog) && Admissible(catalog, offered, stored)
    ensures NoBuiltin(builtins, CompiledAll(offered))
  {
    forall e | e in CompiledAll(offered) ensures !BuiltinType(builtins, e.node.kind.name) && e.packageRef.Some? {
      var i :| 0 <= i < |CompiledAll(offered)| && CompiledAll(offered)[i] == e;
      assert !BuiltIn(catalog, e.node.kind.name);
      var p := EntryOfPackage(offered, e);
    }
  }

  lemma StoringKeepsState(builtins: seq<Entry>, catalog: NodeCatalog, packages: seq<Package>, offered: seq<Package>)
    requires StateOk(builtins, packages) && OffersBuiltins(builtins, catalog) && Admissible(catalog, offered, packages)
    ensures StateOk(builtins, Stored(packages, offered)) && packages <= Stored(packages, offered)
  {
    var more := StoredAppends(packages, offered);
    MoreCompiled(packages, more);
    CompatibleTogether(CompiledAll(packages), CompiledAll(offered), CompiledAll(more), catalog);
    OfferedAreNotBuiltin(builtins, catalog, offered, packages);
  }

  /* ---------- the running catalog ---------- */

  /** Where an entry may come from: built in under `k`, or a stored contribution of kind `k` with its owner. */
  ghost predicate Justified(builtins: seq<Entry>, packages: seq<Package>, k: TypeKey, e: Entry) {
    if k in Boot(builtins).versions then e == Boot(builtins).versions[k]
    else exists s :: s in CompiledAll(packages) && s.node.kind == k && s.node == e.node && OwnerOf(s) == OwnerOf(e)
  }

  ghost predicate OfferedAsBuilt(builtins: seq<Entry>, catalog: NodeCatalog, t: Id) {
    t in catalog.latest && t in Boot(builtins).latest && catalog.latest[t] == Boot(builtins).latest[t]
  }

  ghost predicate CatalogOk(builtins: seq<Entry>, packages: seq<Package>, catalog: NodeCatalog) {
    && (forall k :: k in Boot(builtins).versions ==> k in catalog.versions)
    && (forall k :: k in catalog.versions ==> Justified(builtins, packages, k, catalog.versions[k]))
    && (forall t :: BuiltinType(builtins, t) ==> OfferedAsBuilt(builtins, catalog, t))
  }

  lemma BootVersionIsBuiltin(builtins: seq<Entry>, k: TypeKey)
    requires k in Boot(builtins).versions
    ensures BuiltinType(builtins, k.name)
  {
    VersionFound(map[], builtins, k);
  }

  lemma BootLatest(builtins: seq<Entry>, t: Id)
    requires BuiltinType(builtins, t)
    ensures t in Boot(builtins).latest
  {
    LatestFound(map[], builtins, t);
  }

  lemma {:induction false} PrefixCompiled(p: seq<Package>, q: seq<Package>, e: Entry)
    requires p <= q && e in CompiledAll(p)
    ensures e in CompiledAll(q)
  {
    MoreCompiled(p, q[|p|..]);
    assert q == p + q[|p|..];
  }

  lemma JustifiedLater(builtins: seq<Entry>, p: seq<Package>, q: seq<Package>, k: TypeKey, e: Entry)
    requires p <= q && Justified(builtins, p, k, e)
    ensures Justified(builtins, q, k, e)
  {
    if k !in Boot(builtins).versions {
      var s :| s in CompiledAll(p) && s.node.kind == k && s.node == e.node && OwnerOf(s) == OwnerOf(e);
      PrefixCompiled(p, q, s);
    }
  }

  /** The sources of a version leave no choice of contract and owner. */
  lemma JustifiedAgree(builtins: seq<Entry>, packages: seq<Package>, k: TypeKey, a: Entry, b: Entry)
    requires AllCompatible(CompiledAll(packages)) && Justified(builtins, packages, k, a) && Justified(builtins, packages, k, b)
    ensures a.node == b.node && OwnerOf(a) == OwnerOf(b)
  {
    if k !in Boot(builtins).versions {
      var s :| s in CompiledAll(packages) && s.node.kind == k && s.node == a.node && OwnerOf(s) == OwnerOf(a);
      var t :| t in CompiledAll(packages) && t.node.kind == k && t.node == b.node && OwnerOf(t) == OwnerOf(b);
      var i, j :| 0 <= i < |CompiledAll(packages)| && 0 <= j < |CompiledAll(packages)|
                  && CompiledAll(packages)[i] == s && CompiledAll(packages)[j] == t;
      assert Compatible(CompiledAll(packages)[i], CompiledAll(packages)[j]);
    }
  }

  lemma InstalledVersion(builtins: seq<Entry>, packages: seq<Package>, catalog: NodeCatalog, snapshot: CatalogState, k: TypeKey)
    requires NoBuiltin(builtins, CompiledAll(packages)) && snapshot.packages <= packages
    requires k in catalog.versions ==> Justified(builtins, packages, k, catalog.versions[k])
    ensures var next := Installed(builtins, catalog, snapshot).versions;
            && (k in catalog.versions ==> k in next) && (k in next ==> Justified(builtins, packages, k, next[k]))
  {
    var items := CompiledAll(snapshot.packages);
    VersionFound(catalog.versions, items, k);
    var next := WithVersions(catalog.versions, items);
    if k in next && next[k] in items && next[k].node.kind == k {
      PrefixCompiled(snapshot.packages, packages, next[k]);
      if k in Boot(builtins).versions {
        BootVersionIsBuiltin(builtins, k);
      }
    }
  }

  lemma InstalledLatest(builtins: seq<Entry>, packages: seq<Package>, catalog: NodeCatalog, snapshot: CatalogState, t: Id)
    requires NoBuiltin(builtins, CompiledAll(packages)) && snapshot.packages <= packages && BuiltinType(builtins, t)
    ensures OfferedAsBuilt(builtins, Installed(builtins, catalog, snapshot), t)
  {
    BootLatest(builtins, t);
    var items := CompiledAll(ActivePackages(snapshot.packages, snapshot.active));
    forall e | e in items ensures e.node.kind.name != t {
      ActiveEntriesAreStored(snapshot.packages, snapshot.active, e);
      PrefixCompiled(snapshot.packages, packages, e);
    }
    LatestFound(WithLatest(map[], builtins), items, t);
  }

  lemma InstallKeepsCatalog(builtins: seq<Entry>, packages: seq<Package>, catalog: NodeCatalog, snapshot: CatalogState)
    requires NoBuiltin(builtins, CompiledAll(packages)) && snapshot.packages <= packages
    requires CatalogOk(builtins, packages, catalog)
    ensures CatalogOk(builtins, packages, Installed(builtins, catalog, snapshot))
  {
    var next := Installed(builtins, catalog, snapshot);
    forall k ensures (k in catalog.versions ==> k in next.versions) && (k in next.versions ==> Justified(builtins, packages, k, next.versions[k])) {
      InstalledVersion(builtins, packages, catalog, snapshot, k);
    }
    forall t | BuiltinType(builtins, t) ensures OfferedAsBuilt(builtins, next, t) {
      InstalledLatest(builtins, packages, catalog, snapshot, t);
    }
  }

  lemma BootIsOk(builtins: seq<Entry>, packages: seq<Package>)
    ensures CatalogOk(builtins, packages, Boot(builtins))
  {
    forall t | BuiltinType(builtins, t) ensures OfferedAsBuilt(builtins, Boot(builtins), t) {
      BootLatest(builtins, t);
    }
  }

  lemma StoringKeepsCatalog(builtins: seq<Entry>, p: seq<Package>, q: seq<Package>, catalog: NodeCatalog)
    requires p <= q && CatalogOk(builtins, p, catalog)
    ensures CatalogOk(builtins, q, catalog)
  {
    forall k | k in catalog.versions ensures Justified(builtins, q, k, catalog.versions[k]) {
      JustifiedLater(builtins, p, q, k, catalog.versions[k]);
    }
  }

  /* ---------- every operation ---------- */

  /** Built-in definitions carry no package. */
  ghost predicate Builtins(builtins: seq<Entry>) {
    forall e :: e in builtins ==> e.packageRef.None?
  }

  ghost predicate Sound(builtins: seq<Entry>, m: Machine) {
    && StateOk(builtins, m.state.packages) && CatalogOk(builtins, m.state.packages, m.catalog)
    && forall c :: c in m.committed ==> c.packages <= m.state.packages
  }

  lemma BuiltinsAreOffered(builtins: seq<Entry>, packages: seq<Package>, catalog: NodeCatalog)
    requires Builtins(builtins) && CatalogOk(builtins, packages, catalog)
    ensures OffersBuiltins(builtins, catalog)
  {
    forall t | BuiltinType(builtins, t) ensures BuiltIn(catalog, t) {
      assert OfferedAsBuilt(builtins, catalog, t);
      LatestFound(map[], builtins, t);
    }
  }

  lemma CommitKeepsSound(builtins: seq<Entry>, m: Machine, next: CatalogState)
    requires Sound(builtins, m) && StateOk(builtins, next.packages) && m.state.packages <= next.packages
    ensures Sound(builtins, m.(state := next, committed := m.committed + [next]))
  {
    StoringKeepsCatalog(builtins, m.state.packages, next.packages, m.catalog);
    forall c | c in m.committed + [next] ensures c.packages <= next.packages {
      assert c in m.committed ==> c.packages <= m.state.packages;
    }
  }

  lemma ActionKeepsSound(builtins: seq<Entry>, m: Machine, action: Action)
    requires Builtins(builtins) && Sound(builtins, m)
    ensures Sound(builtins, Apply(builtins, m, action))
  {
    BuiltinsAreOffered(builtins, m.state.packages, m.catalog);
    match action
    case Activate(a) =>
      if MayActivate(m.catalog, m.state, a) {
        StoringKeepsState(builtins, m.catalog, m.state.packages, [a.package]);
        CommitKeepsSound(builtins, m, Activated(m.state, a.package));
      }
    case Reload(offered) =>
      if Admissible(m.catalog, offered, m.state.packages) {
        StoringKeepsState(builtins, m.catalog, m.state.packages, offered);
        CommitKeepsSound(builtins, m, Reloaded(m.state, offered));
      }
    case Install(k) =>
      if k < |m.committed| {
        assert m.committed[k] in m.committed;
        InstallKeepsCatalog(builtins, m.state.packages, m.catalog, m.committed[k]);
      }
    case Restart =>
      BootIsOk(builtins, m.state.packages);
      InstallKeepsCatalog(builtins, m.state.packages, Boot(builtins), m.state);
  }

  lemma {:induction false} RunsAreSound(builtins: seq<Entry>, actions: seq<Action>)
    requires Builtins(builtins)
    ensures Sound(builtins, RunAll(builtins, actions))
  {
    if actions == [] {
      BootIsOk(builtins, []);
    } else {
      RunsAreSound(builtins, actions[..|actions| - 1]);
      ActionKeepsSound(builtins, RunAll(builtins, actions[..|actions| - 1]), actions[|actions| - 1]);
    }
  }

  /* ---------- what never changes ---------- */

  /** A version known now is known after any operation, with the same contract and the same owner. */
  lemma VersionLasts(builtins: seq<Entry>, m: Machine, action: Action, k: TypeKey)
    requires Builtins(builtins) && Sound(builtins, m) && k in m.catalog.versions
    ensures var next := Apply(builtins, m, action).catalog.versions;
            k in next && next[k].node == m.catalog.versions[k].node && OwnerOf(next[k]) == OwnerOf(m.catalog.versions[k])
  {
    var next := Apply(builtins, m, action);
    ActionKeepsSound(builtins, m, action);
    VersionStays(builtins, m, action, k);
    JustifiedWas(builtins, m, next, k);
    JustifiedAgree(builtins, next.state.packages, k, m.catalog.versions[k], next.catalog.versions[k]);
  }

  lemma PackagesGrow(builtins: seq<Entry>, m: Machine, action: Action)
    requires Builtins(builtins) && Sound(builtins, m)
    ensures m.state.packages <= Apply(builtins, m, action).state.packages
  {
    BuiltinsAreOffered(builtins, m.state.packages, m.catalog);
    match action
    case Activate(a) =>
      if MayActivate(m.catalog, m.state, a) {
        StoringKeepsState(builtins, m.catalog, m.state.packages, [a.package]);
      }
    case Reload(offered) =>
      if Admissible(m.catalog, offered, m.state.packages) {
        StoringKeepsState(builtins, m.catalog, m.state.packages, offered);
      }
    case _ =>
  }

  lemma JustifiedWas(builtins: seq<Entry>, m: Machine, next: Machine, k: TypeKey)
    requires CatalogOk(builtins, m.state.packages, m.catalog) && m.state.packages <= next.state.packages && k in m.catalog.versions
    ensures Justified(builtins, next.state.packages, k, m.catalog.versions[k])
  {
    JustifiedLater(builtins, m.state.packages, next.state.packages, k, m.catalog.versions[k]);
  }

  /** Restarting finds every version again, built in or stored. */
  lemma VersionStays(builtins: seq<Entry>, m: Machine, action: Action, k: TypeKey)
    requires Builtins(builtins) && Sound(builtins, m) && k in m.catalog.versions
    ensures k in Apply(builtins, m, action).catalog.versions && m.state.packages <= Apply(builtins, m, action).state.packages
  {
    PackagesGrow(builtins, m, action);
    if action.Install? && action.snapshot < |m.committed| {
      VersionFound(m.catalog.versions, CompiledAll(m.committed[action.snapshot].packages), k);
    } else if action.Restart? {
      VersionFound(Boot(builtins).versions, CompiledAll(m.state.packages), k);
      if k !in Boot(builtins).versions {
        assert Justified(builtins, m.state.packages, k, m.catalog.versions[k]);
      }
    }
  }

  /** Over any further operations, what was found for a type version stays: its ports, fields, defaults, execution
      and owning package. Only the version of the owning package may move on. */
  lemma {:induction false} ContractsNeverChange(builtins: seq<Entry>, actions: seq<Action>, more: seq<Action>, k: TypeKey)
    requires Builtins(builtins) && k in RunAll(builtins, actions).catalog.versions
    ensures var was, next := RunAll(builtins, actions).catalog.versions, RunAll(builtins, actions + more).catalog.versions;
            k in next && next[k].node == was[k].node && OwnerOf(next[k]) == OwnerOf(was[k])
  {
    if more == [] {
      assert actions + more == actions;
    } else {
      var earlier := actions + more[..|more| - 1];
      ContractsNeverChange(builtins, actions, more[..|more| - 1], k);
      RunsAreSound(builtins, earlier);
      VersionLasts(builtins, RunAll(builtins, earlier), more[|more| - 1], k);
      assert (actions + more)[..|actions + more| - 1] == earlier;
    }
  }

  /** Built-in definitions are never replaced, neither by version nor as the one offered for their type. */
  lemma BuiltinsAreNeverReplaced(builtins: seq<Entry>, actions: seq<Action>)
    requires Builtins(builtins)
    ensures var catalog := RunAll(builtins, actions).catalog;
            && (forall k :: k in Boot(builtins).versions ==> k in catalog.versions && catalog.versions[k] == Boot(builtins).versions[k])
            && (forall t :: BuiltinType(builtins, t) ==> OfferedAsBuilt(builtins, catalog, t))
  {
    RunsAreSound(builtins, actions);
    var m := RunAll(builtins, actions);
    forall k | k in Boot(builtins).versions ensures m.catalog.versions[k] == Boot(builtins).versions[k] {
      assert Justified(builtins, m.state.packages, k, m.catalog.versions[k]);
    }
  }

  /** All versions of a type belong to one package, or all of them are built in. */
  lemma OneOwnerPerType(builtins: seq<Entry>, actions: seq<Action>, k: TypeKey, l: TypeKey)
    requires Builtins(builtins) && k.name == l.name
    requires k in RunAll(builtins, actions).catalog.versions && l in RunAll(builtins, actions).catalog.versions
    ensures OwnerOf(RunAll(builtins, actions).catalog.versions[k]) == OwnerOf(RunAll(builtins, actions).catalog.versions[l])
  {
    RunsAreSound(builtins, actions);
    var m := RunAll(builtins, actions);
    OwnersAgree(builtins, m.state.packages, k, m.catalog.versions[k], l, m.catalog.versions[l]);
  }

  lemma OwnersAgree(builtins: seq<Entry>, packages: seq<Package>, k: TypeKey, a: Entry, l: TypeKey, b: Entry)
    requires Builtins(builtins) && StateOk(builtins, packages) && k.name == l.name
    requires Justified(builtins, packages, k, a) && Justified(builtins, packages, l, b)
    ensures OwnerOf(a) == OwnerOf(b)
  {
    var s := OwnerSource(builtins, packages, k, a);
    var t := OwnerSource(builtins, packages, l, b);
    if s in CompiledAll(packages) && t in CompiledAll(packages) {
      var i, j :| 0 <= i < |CompiledAll(packages)| && 0 <= j < |CompiledAll(packages)|
                  && CompiledAll(packages)[i] == s && CompiledAll(packages)[j] == t;
      assert Compatible(CompiledAll(packages)[i], CompiledAll(packages)[j]);
    }
  }

  /** The stored contribution or built-in definition an entry has its owner from. */
  lemma OwnerSource(builtins: seq<Entry>, packages: seq<Package>, k: TypeKey, e: Entry) returns (s: Entry)
    requires Builtins(builtins) && NoBuiltin(builtins, CompiledAll(packages)) && Justified(builtins, packages, k, e)
    ensures OwnerOf(s) == OwnerOf(e) && s.node.kind.name == k.name
    ensures (s in CompiledAll(packages) && !BuiltinType(builtins, k.name)) || (BuiltinType(builtins, k.name) && OwnerOf(s).None?)
  {
    if k in Boot(builtins).versions {
      VersionFound(map[], builtins, k);
      s := e;
    } else {
      s :| s in CompiledAll(packages) && s.node.kind == k && s.node == e.node && OwnerOf(s) == OwnerOf(e);
    }
  }
}
