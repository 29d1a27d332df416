/** What activations, reloads and installs do, exactly (packages/node-registry/service.ts, packages/pipeline-model/catalog.ts). */
module RegistryEffects {
  import opened Wrappers
  import opened PipelineModel
  import opened NodePackages
  import opened Registry

  /* ---------- the catalog after an install ---------- */

  /** The entry is a node of one of these packages. */
  ghost predicate NodeOf(packages: seq<Package>, e: Entry) {
    exists p, n :: p in packages && n in p.nodes && e == Entry(n, Some(p.key))
  }

  ghost predicate NodeOfActive(state: CatalogState, e: Entry) {
    exists p, n :: p in state.packages && p.key in state.active && n in p.nodes && e == Entry(n, Some(p.key))
  }

  lemma {:induction false} CompiledMeans(packages: seq<Package>, e: Entry)
    ensures e in CompiledAll(packages) <==> NodeOf(packages, e)
  {
    if packages != [] {
      var init, last := packages[..|packages| - 1], packages[|packages| - 1];
      CompiledMeans(init, e);
      CompiledNode(last, e);
      assert packages == init + [last];
      if NodeOf(init, e) {
        var p, n :| p in init && n in p.nodes && e == Entry(n, Some(p.key));
        assert p in packages;
      }
    }
  }

  lemma CompiledNode(p: Package, e: Entry)
    ensures e in Compiled(p) <==> exists n :: n in p.nodes && e == Entry(n, Some(p.key))
  {
    if e in Compiled(p) {
      var i :| 0 <= i < |Compiled(p)| && Compiled(p)[i] == e;
      assert p.nodes[i] in p.nodes;
    }
    if n :| n in p.nodes && e == Entry(n, Some(p.key)) {
      var i :| 0 <= i < |p.nodes| && p.nodes[i] == n;
      assert Compiled(p)[i] == e;
    }
  }

  lemma {:induction false} ActiveMeans(packages: seq<Package>, active: seq<PackageKey>, p: Package)
    ensures p in ActivePackages(packages, active) <==> p in packages && p.key in active
  {
    if packages != [] {
      ActiveMeans(packages[..|packages| - 1], active, p);
      assert packages == packages[..|packages| - 1] + [packages[|packages| - 1]];
    }
  }

  lemma ActiveNodes(state: CatalogState, e: Entry)
    ensures e in CompiledAll(ActivePackages(state.packages, state.active)) <==> NodeOfActive(state, e)
  {
    var chosen := ActivePackages(state.packages, state.active);
    CompiledMeans(chosen, e);
    forall p ensures p in chosen <==> p in state.packages && p.key in state.active {
      ActiveMeans(state.packages, state.active, p);
    }
  }

  lemma {:induction false} LatestIsOne(latest: map<Id, Entry>, items: seq<Entry>, t: Id)
    ensures t in WithLatest(latest, items) <==> t in latest || exists e :: e in items && e.node.kind.name == t
    ensures t in WithLatest(latest, items) ==>
              if exists e :: e in items && e.node.kind.name == t
              then WithLatest(latest, items)[t] in items && WithLatest(latest, items)[t].node.kind.name == t
              else t in latest && WithLatest(latest, items)[t] == latest[t]
  {
    if items != [] {
      var init, last := items[..|items| - 1], items[|items| - 1];
      LatestIsOne(latest, init, t);
      assert items == init + [last];
    }
  }

  lemma {:induction false} VersionIsOne(versions: map<TypeKey, Entry>, items: seq<Entry>, k: TypeKey)
    ensures k in WithVersions(versions, items) <==> k in versions || exists e :: e in items && e.node.kind == k
    ensures k in WithVersions(versions, items) ==>
              if exists e :: e in items && e.node.kind == k
              then WithVersions(versions, items)[k] in items && WithVersions(versions, items)[k].node.kind == k
              else k in versions && WithVersions(versions, items)[k] == versions[k]
  {
    if items != [] {
      var init, last := items[..|items| - 1], items[|items| - 1];
      VersionIsOne(versions, init, k);
      assert items == init + [last];
    }
  }

  /** A type is offered for new nodes exactly when it is built in or an active package has it; an active package's
      definition comes before a built-in one. */
  lemma OffersExactly(builtins: seq<Entry>, catalog: NodeCatalog, state: CatalogState, t: Id)
    ensures var latest := Installed(builtins, catalog, state).latest;
            && (t in latest <==> (exists e :: NodeOfActive(state, e) && e.node.kind.name == t) || exists e :: e in builtins && e.node.kind.name == t)
            && (t in latest ==>
                  latest[t].node.kind.name == t
                  && if exists e :: NodeOfActive(state, e) && e.node.kind.name == t then NodeOfActive(state, latest[t]) else latest[t] in builtins)
  {
    var items := CompiledAll(ActivePackages(state.packages, state.active));
    forall e {
      ActiveNodes(state, e);
    }
    LatestIsOne(map[], builtins, t);
    LatestIsOne(WithLatest(map[], builtins), items, t);
  }

  /** A type version is known exactly when it was, or a stored package has it, active or not. */
  lemma KnowsExactly(builtins: seq<Entry>, catalog: NodeCatalog, state: CatalogState, k: TypeKey)
    ensures var versions := Installed(builtins, catalog, state).versions;
            && (k in versions <==> k in catalog.versions || exists e :: NodeOf(state.packages, e) && e.node.kind == k)
            && (k in versions ==>
                  if exists e :: NodeOf(state.packages, e) && e.node.kind == k
                  then NodeOf(state.packages, versions[k]) && versions[k].node.kind == k
                  else k in catalog.versions && versions[k] == catalog.versions[k])
  {
    forall e {
      CompiledMeans(state.packages, e);
    }
    VersionIsOne(catalog.versions, CompiledAll(state.packages), k);
  }

  /* ---------- the two transactions ---------- */

  lemma {:induction false} SiblingsGone(active: seq<PackageKey>, packages: seq<Package>, id: Id, key: PackageKey)
    ensures key in WithoutSiblings(active, packages, id) <==> key in active && !(key.id == id && Published(packages, key))
  {
    if active != [] {
      SiblingsGone(active[..|active| - 1], packages, id, key);
      assert active == active[..|active| - 1] + [active[|active| - 1]];
    }
  }

  lemma StoredOne(packages: seq<Package>, p: Package)
    ensures Stored(packages, [p]) == if Published(packages, p.key) then packages else packages + [p]
  {
    assert [p][..0] == [];
    assert Stored(packages, []) == packages;
  }

  /** An activation stores its release if it is new, makes it active, and takes its stored siblings out. */
  lemma ActivatesExactly(state: CatalogState, p: Package)
    ensures var next := Activated(state, p);
            && next.revision == state.revision + 1
            && next.packages == (if Published(state.packages, p.key) then state.packages else state.packages + [p])
            && forall key :: key in next.active <==> key == p.key || (key in state.active && !(key.id == p.key.id && Published(next.packages, key)))
  {
    StoredOne(state.packages, p);
    forall key {
      SiblingsGone(state.active, Stored(state.packages, [p]), p.key.id, key);
    }
  }

  lemma {:induction false} StoresAll(packages: seq<Package>, offered: seq<Package>)
    ensures packages <= Stored(packages, offered)
    ensures forall p :: p in offered ==> Published(Stored(packages, offered), p.key)
    ensures forall p :: p in Stored(packages, offered) ==> p in packages || p in offered
  {
    if offered != [] {
      var init, last := offered[..|offered| - 1], offered[|offered| - 1];
      StoresAll(packages, init);
      assert offered == init + [last];
      var rest := Stored(packages, init);
      StillPublished(rest, last);
    }
  }

  lemma StillPublished(packages: seq<Package>, p: Package)
    ensures forall key :: Published(packages, key) ==> Published(packages + [p], key)
    ensures Published(packages + [p], p.key)
  {
    forall key | Published(packages, key) ensures Published(packages + [p], key) {
      var i :| 0 <= i < |packages| && packages[i].key == key;
      assert (packages + [p])[i].key == key;
    }
    assert (packages + [p])[|packages|].key == p.key;
  }

  /** A reload makes exactly the offered releases active; what is stored stays, and every offered release is stored. */
  lemma ReloadsExactly(state: CatalogState, offered: seq<Package>)
    ensures var next := Reloaded(state, offered);
            && next.revision == state.revision + 1 && state.packages <= next.packages
            && |next.active| == |offered| && (forall i :: 0 <= i < |offered| ==> next.active[i] == offered[i].key)
            && (forall p :: p in offered ==> Published(next.packages, p.key))
            && (forall p :: p in next.packages ==> p in state.packages || p in offered)
  {
    StoresAll(state.packages, offered);
  }

  /* ---------- over every sequence of operations ---------- */

  ghost predicate ActiveStored(state: CatalogState) {
    forall key :: key in state.active ==> Published(state.packages, key)
  }

  lemma ActionKeepsActiveStored(builtins: seq<Entry>, m: Machine, action: Action)
    requires ActiveStored(m.state)
    ensures ActiveStored(Apply(builtins, m, action).state)
  {
    match action
    case Activate(a) =>
      ActivatesExactly(m.state, a.package);
      StillPublished(m.state.packages, a.package);
    case Reload(offered) =>
      ReloadsExactly(m.state, offered);
      forall key | key in Reloaded(m.state, offered).active ensures Published(Reloaded(m.state, offered).packages, key) {
        var i :| 0 <= i < |offered| && key == offered[i].key;
        assert offered[i] in offered;
      }
    case _ =>
  }

  lemma {:induction false} RunsKeepActiveStored(builtins: seq<Entry>, actions: seq<Action>)
    ensures ActiveStored(RunAll(builtins, actions).state)
  {
    if actions != [] {
      RunsKeepActiveStored(builtins, actions[..|actions| - 1]);
      ActionKeepsActiveStored(builtins, RunAll(builtins, actions[..|actions| - 1]), actions[|actions| - 1]);
    }
  }

  /** In every run, after an activation its release is the only active one of its package. */
  lemma ActivationReplaces(builtins: seq<Entry>, actions: seq<Action>, a: Activation)
    requires MayActivate(RunAll(builtins, actions).catalog, RunAll(builtins, actions).state, a)
    ensures var next := RunAll(builtins, actions + [Activate(a)]).state;
            && a.package.key in next.active
            && forall key :: key in next.active && key.id == a.package.key.id ==> key == a.package.key
  {
    var m := RunAll(builtins, actions);
    assert (actions + [Activate(a)])[..|actions|] == actions;
    RunsKeepActiveStored(builtins, actions);
    ActivatesExactly(m.state, a.package);
    StillPublished(m.state.packages, a.package);
  }
}
