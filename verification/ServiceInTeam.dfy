/** The life of a service in a team that exists already: well-formed requests to scaffold
    it, perhaps activate it, retire it and finalize it are all carried out, and the team,
    its other entries and every file are as they were. */
module ServiceInTeam {
  import opened Wrappers
  import opened Catalog
  import opened CatalogFacts
  import opened ChangePlan
  import opened ChangeSets
  import opened OverlayFacts
  import opened RenderSafety
  import opened RenderAccounting
  import opened ServiceAccounting
  import opened CatalogPreserved
  import opened OperationSoundness
  import opened ServiceSoundness
  import opened RenderRuns
  import opened ScaffoldRoundTrip
  import opened ServiceLifecycle

  // ---------------------------------------------------------------- lists apart from some names

  /** Without the names, the list is what it was, up to order. */
  predicate Apart<T(!new, ==)>(before: seq<T>, after: seq<T>, key: T -> string, names: seq<string>) {
    multiset(Without(after, key, names)) == multiset(before)
  }

  lemma {:induction false} KeptCounts<T(!new)>(items: seq<T>, key: T -> string, names: seq<string>, x: T)
    ensures multiset(Without(items, key, names))[x] == if key(x) in names then 0 else multiset(items)[x]
  {
    if items != [] {
      KeptCounts(items[1..], key, names, x);
      assert items == [items[0]] + items[1..];
    }
  }

  /** The lists hold the same items but for those names. */
  ghost predicate SameBut<T(!new)>(middle: seq<T>, after: seq<T>, key: T -> string, names: seq<string>) {
    forall x :: key(x) !in names ==> multiset(after)[x] == multiset(middle)[x]
  }

  lemma StaysApart<T(!new)>(before: seq<T>, middle: seq<T>, after: seq<T>, key: T -> string, names: seq<string>)
    requires Apart(before, middle, key, names) && SameBut(middle, after, key, names)
    ensures Apart(before, after, key, names)
  {
    var a, b := Without(middle, key, names), Without(after, key, names);
    forall x ensures multiset(a)[x] == multiset(b)[x] {
      KeptCounts(middle, key, names, x);
      KeptCounts(after, key, names, x);
    }
    assert multiset(a) == multiset(b);
  }

  lemma NobodyApart<T(!new)>(items: seq<T>, key: T -> string, names: seq<string>)
    requires forall x <- items :: key(x) !in names
    ensures Apart(items, items, key, names)
  {
    forall x ensures multiset(Without(items, key, names))[x] == multiset(items)[x] {
      KeptCounts(items, key, names, x);
      assert x in multiset(items) <==> x in items;
    }
  }

  lemma ApartMember<T(!new)>(before: seq<T>, after: seq<T>, key: T -> string, names: seq<string>, x: T)
    requires Apart(before, after, key, names) && x in after && key(x) !in names
    ensures x in before
  {
    assert x in Without(after, key, names);
    assert x in multiset(before);
  }

  lemma UpdateSameBut<T(!new)>(items: seq<T>, key: T -> string, names: seq<string>, j: nat, e: T)
    requires j < |items| && key(items[j]) in names && key(e) in names
    ensures SameBut(items, items[j := e], key, names)
  {
  }

  lemma AddSameBut<T(!new)>(items: seq<T>, key: T -> string, names: seq<string>, e: T)
    requires key(e) in names
    ensures SameBut(items, items + [e], key, names)
  {
  }

  lemma SortSameBut<T(!new)>(middle: seq<T>, after: seq<T>, key: T -> string, names: seq<string>)
    requires SameBut(middle, after, key, names)
    ensures SameBut(middle, SortBy(after, key), key, names)
  {
    hide SortBy;
  }

  lemma {:induction false} ComponentsSameBut(entries: seq<Entry>, s: Service, components: seq<string>, names: seq<string>)
    requires forall c <- components :: c in names
    ensures SameBut(entries, WithComponents(entries, s, components), EntryName, names)
    decreases |components|
  {
    hide Index, ComponentRef, SameBut;
    if components == [] {
      assert SameBut(entries, entries, EntryName, names) by { Unchanged(entries, EntryName, names); }
    } else {
      var init, c := components[..|components| - 1], components[|components| - 1];
      var middle := WithComponents(entries, s, init);
      ComponentsSameBut(entries, s, init, names);
      var j := Index(middle, EntryName, c);
      if j < 0 {
        AddSameBut(middle, EntryName, names, NewEntry(AppLeaf(c), ComponentRef(s, c)));
      } else if middle[j].lifecycle.Active? {
        UpdateSameBut(middle, EntryName, names, j, middle[j].(databaseRef := ComponentRef(s, c)));
      } else {
        Unchanged(middle, EntryName, names);
      }
      ChainSameBut(entries, middle, WithComponents(entries, s, components), EntryName, names);
    }
  }

  lemma Unchanged<T(!new)>(items: seq<T>, key: T -> string, names: seq<string>)
    ensures SameBut(items, items, key, names)
  {
  }

  lemma ChainSameBut<T(!new)>(a: seq<T>, b: seq<T>, c: seq<T>, key: T -> string, names: seq<string>)
    requires SameBut(a, b, key, names) && SameBut(b, c, key, names)
    ensures SameBut(a, c, key, names)
  {
  }

  lemma {:induction false} RetiredSameBut(entries: seq<Entry>, done: seq<string>, id: string, names: seq<string>)
    requires forall c <- done :: c in names
    ensures SameBut(entries, RetireNamed(entries, done, id), EntryName, names)
    decreases |done|
  {
    hide Index, SameBut;
    if done == [] {
      Unchanged(entries, EntryName, names);
    } else {
      var init, c := done[..|done| - 1], done[|done| - 1];
      var middle := RetireNamed(entries, init, id);
      RetiredSameBut(entries, init, id, names);
      var j := Index(middle, EntryName, c);
      if j >= 0 {
        UpdateSameBut(middle, EntryName, names, j, Retired(middle[j], id));
      } else {
        Unchanged(middle, EntryName, names);
      }
      ChainSameBut(entries, middle, RetireNamed(entries, done, id), EntryName, names);
    }
  }

  // ---------------------------------------------------------------- what is the service's

  function Components(p: Parameters): seq<string> { TemplateComponents(p.name, p.template) }
  function OwnDatabases(p: Parameters): seq<string> { if p.withDatabase then [p.name] else [] }

  predicate Ours(p: Parameters, leaf: Leaf) {
    match leaf
    case TeamLeaf(_) => false
    case DatabaseLeaf(name) => name in OwnDatabases(p)
    case AppLeaf(name) => name in Components(p)
  }

  predicate OursPath(p: Parameters, path: Path) {
    ((path.Manifest? || path.Kustomization? || path.Extra?) && Ours(p, path.leaf)) || (path.Source? && path.service == p.name)
  }

  predicate OursAction(p: Parameters, a: Action) {
    (ActionLeaf(a).Some? ==> Ours(p, ActionLeaf(a).value)) && (ActionSource(a).Some? ==> ActionSource(a).value == p.name)
  }

  predicate NewIn(s: Service, p: Parameters) {
    && s.name == s.path == p.name && s.template == p.template && s.components == Components(p)
    && !s.ownsTeam && s.ownsDatabase == p.withDatabase && s.databaseRef == (if p.withDatabase then p.name else "")
  }

  predicate Offers(t: Tenant, p: Parameters) { exists s <- t.services :: NewIn(s, p) }

  /** The team with the service in it: otherwise as before. */
  predicate Joined(t0: Tenant, t: Tenant, p: Parameters) {
    && t == t0.(applications := t.applications, databases := t.databases, services := t.services)
    && Apart(t0.applications, t.applications, EntryName, Components(p)) && Apart(t0.databases, t.databases, EntryName, OwnDatabases(p))
    && Apart(t0.services, t.services, ServiceName, [p.name]) && Offers(t, p) && (p.withDatabase ==> HasEntry(t.databases, p.name))
  }

  /** No file of the repository is the service's. */
  ghost predicate Unused(repo: Repository, p: Parameters) { forall path <- repo :: !OursPath(p, path) }

  /** The other files are as before. */
  ghost predicate OthersKept(before: Repository, repo: Repository, p: Parameters) {
    forall path :: path != CatalogPath && !OursPath(p, path) ==> (path in repo <==> path in before) && (path in before ==> repo[path] == before[path])
  }

  /** The service's files are generated ones of what the team lists, and all of them. */
  ghost predicate OursListed(repo: Repository, t: Tenant, p: Parameters) {
    && (forall path <- repo :: OursPath(p, path) && !path.Source? ==> (path.Manifest? || path.Kustomization?) && TenantHas(t, path.leaf))
    && (forall leaf :: Ours(p, leaf) && TenantHas(t, leaf) ==> Kustomization(leaf) in repo)
    && ExactSource(repo, p.name, SourceFiles(p.template))
  }

  /** The service is new, and its team is there and active. */
  ghost predicate Ready(before: Repository, p: Parameters, i: nat) {
    && Loads(before) && i < |TenantsOf(before)| && TenantsOf(before)[i].name == p.team && TenantsOf(before)[i].lifecycle.Active?
    && GoldenReadable(before, p.template) && ValidName(p.name, 48) && Unused(before, p)
  }

  /** A stage of the service's life. */
  ghost predicate Stage(before: Repository, repo: Repository, p: Parameters, i: nat) {
    && Ready(before, p, i) && Healthy(repo) && i < |TenantsOf(repo)| && TenantsOf(repo) == TenantsOf(before)[i := TenantsOf(repo)[i]]
    && Joined(TenantsOf(before)[i], TenantsOf(repo)[i], p) && OthersKept(before, repo, p) && OursListed(repo, TenantsOf(repo)[i], p)
  }

  predicate Serving(t: Tenant, p: Parameters) {
    && (forall s <- t.services :: s.name == p.name ==> !s.lifecycle.Retiring?)
    && forall a <- t.applications :: a.name in Components(p) ==> a.lifecycle.Active?
  }

  predicate Leaving(t: Tenant, p: Parameters, id: string) {
    && (forall s <- t.services :: s.name == p.name ==> s.lifecycle.Retiring? && s.request == id)
    && (forall a <- t.applications :: a.name in Components(p) ==> a.lifecycle.Retiring? && a.request == id)
    && forall d <- t.databases :: d.name in OwnDatabases(p) ==> d.lifecycle.Retiring? && d.request == id
  }

  // ---------------------------------------------------------------- an unused name is listed nowhere

  lemma NothingOurs(before: Repository, p: Parameters, t: Tenant)
    requires Loads(before) && Unused(before, p) && t in TenantsOf(before)
    ensures (forall a <- t.applications :: a.name !in Components(p)) && (forall d <- t.databases :: d.name !in OwnDatabases(p))
    ensures forall s <- t.services :: s.name != p.name
  {
    hide UniqueNames, AllNames, ValidName, OwnersOk, LifecycleOk, ServiceLifecycleOk, TemplateComponents, HasEntry;
    assert TenantOk(before.Keys, t);
    forall a <- t.applications ensures a.name !in Components(p) {
      assert ApplicationOk(before.Keys, t.databases, a);
      var path :| path in before && InLeaf(path, AppLeaf(a.name));
    }
    forall d <- t.databases ensures d.name !in OwnDatabases(p) {
      assert DatabaseOk(before.Keys, d);
      var path :| path in before && InLeaf(path, DatabaseLeaf(d.name));
    }
    forall s <- t.services ensures s.name != p.name {
      assert ServiceOk(before.Keys, t.databases, s);
      var path :| path in before && path.Source? && path.service == s.name;
    }
  }

  lemma NothingRefers(before: Repository, p: Parameters, t: Tenant)
    requires Loads(before) && Unused(before, p) && t in TenantsOf(before) && p.withDatabase && p.name != ""
    ensures (forall a <- t.applications :: a.databaseRef != p.name) && forall s <- t.services :: s.databaseRef != p.name
  {
    hide UniqueNames, AllNames, ValidName, OwnersOk, LifecycleOk, ServiceLifecycleOk, TemplateComponents, LeafExists, SourceExists, Components;
    NothingOurs(before, p, t);
    assert TenantOk(before.Keys, t);
    assert !HasEntry(t.databases, p.name);
    forall a <- t.applications ensures a.databaseRef != p.name {
      assert ApplicationOk(before.Keys, t.databases, a);
    }
    forall s <- t.services ensures s.databaseRef != p.name {
      assert ServiceOk(before.Keys, t.databases, s);
    }
  }

  // ---------------------------------------------------------------- the team in the catalog

  /** Where the team and its service are. */
  lemma Places(before: Repository, repo: Repository, p: Parameters, i: nat) returns (j: nat)
    requires Stage(before, repo, p, i)
    ensures var tenants := TenantsOf(repo);
            && Index(tenants, TenantName, p.team) == i && tenants[i].lifecycle.Active? && Separate(tenants) && Derived(tenants)
            && j < |tenants[i].services| && Index(tenants[i].services, ServiceName, p.name) == j && NewIn(tenants[i].services[j], p)
  {
    hide Index, UniqueNames, AllNames, Shape, Consistent, TenantOk, Valid, Derived, HasEntry, Apart, NewIn, OthersKept, OursListed, Unused, ValidName;
    var tenants := TenantsOf(repo);
    ValidHasShape(repo.Keys, tenants);
    UniqueIsSeparate(tenants);
    forall a, b | 0 <= a < b < |tenants| ensures TenantName(tenants[a]) != TenantName(tenants[b]) {
      TwoTeams(tenants, a, b);
    }
    assert TenantName(tenants[i]) == p.team;
    OnlyMatch(tenants, TenantName, i);
    SeparateTenant(tenants, i);
    var s :| s in tenants[i].services && NewIn(s, p);
    j :| 0 <= j < |tenants[i].services| && tenants[i].services[j] == s;
    assert ServiceName(tenants[i].services[j]) == p.name by { NewInName(s, p); }
    OnlyMatch(tenants[i].services, ServiceName, j);
  }

  lemma NewInName(s: Service, p: Parameters)
    requires NewIn(s, p)
    ensures s.name == s.path == p.name && s.template == p.template && s.components == Components(p) && !s.ownsTeam
  {
  }

  /** What the actions of a scaffold, an activation or a retirement do. */
  ghost predicate Builds(p: Parameters, t: Tenant, after: Tenant, actions: seq<Action>) {
    && (forall a <- actions :: OursAction(p, a) && !a.DropLeaf? && !a.DropSource?)
    && (forall a <- actions :: a.WriteLeaf? ==> TenantHas(after, a.leaf))
    && (forall leaf :: Ours(p, leaf) && TenantHas(t, leaf) ==> TenantHas(after, leaf))
    && (forall leaf :: Ours(p, leaf) && TenantHas(after, leaf) ==> TenantHas(t, leaf) || exists a <- actions :: a.WriteLeaf? && a.leaf == leaf)
  }

  lemma OthersUntouchedHere(repo: Repository, plan: Plan, p: Parameters, path: Path)
    requires Execute(repo, plan.actions).Ok? && (forall a <- plan.actions :: OursAction(p, a)) && !OursPath(p, path) && path != CatalogPath
    ensures (path in FilesAfter(repo, plan) <==> path in repo) && (path in repo ==> FilesAfter(repo, plan)[path] == repo[path])
  {
    hide Execute, FilesAfter, Ours;
    UntouchedAfter(repo, plan, path);
  }

  lemma LeafListed(repo: Repository, plan: Plan, p: Parameters, t: Tenant, after: Tenant, path: Path)
    requires Execute(repo, plan.actions).Ok? && Builds(p, t, after, plan.actions)
    requires forall path <- repo :: OursPath(p, path) && !path.Source? ==> (path.Manifest? || path.Kustomization?) && TenantHas(t, path.leaf)
    requires path in FilesAfter(repo, plan) && OursPath(p, path) && !path.Source?
    ensures (path.Manifest? || path.Kustomization?) && TenantHas(after, path.leaf)
  {
    hide Execute, FilesAfter, TenantHas, Ours;
    if path !in repo {
      CreatedBy(repo, plan, path);
      var a :| a in plan.actions && About(a, path) && (a.WriteLeaf? || a.WriteSource? || a.WriteVersion?);
    }
  }

  lemma LeafComplete(repo: Repository, plan: Plan, p: Parameters, t: Tenant, after: Tenant, leaf: Leaf)
    requires Execute(repo, plan.actions).Ok? && Unanimous(plan.actions) && NoDrops(plan.actions) && Builds(p, t, after, plan.actions)
    requires TenantHas(t, leaf) ==> Kustomization(leaf) in repo
    requires Ours(p, leaf) && TenantHas(after, leaf)
    ensures Kustomization(leaf) in FilesAfter(repo, plan)
  {
    hide Execute, FilesAfter, TenantHas, Ours, Unanimous, OursAction;
    if TenantHas(t, leaf) {
      Survives(repo, plan, Kustomization(leaf));
    } else {
      var a :| a in plan.actions && a.WriteLeaf? && a.leaf == leaf;
      KustomizationWritten(repo, plan, leaf, a.manifest);
    }
  }

  lemma SourceComplete(repo: Repository, plan: Plan, p: Parameters)
    requires Execute(repo, plan.actions).Ok? && NoDrops(plan.actions) && (forall a <- plan.actions :: !a.WriteSource?)
    requires ExactSource(repo, p.name, SourceFiles(p.template))
    ensures ExactSource(FilesAfter(repo, plan), p.name, SourceFiles(p.template))
  {
    hide Execute, FilesAfter, SourceFiles, NoDrops;
    var next := FilesAfter(repo, plan);
    forall f | f in SourceFiles(p.template) ensures Source(p.name, f) in next {
      Survives(repo, plan, Source(p.name, f));
    }
    forall path <- next | path.Source? && path.service == p.name ensures path.file in SourceFiles(p.template) {
      if path !in repo {
        var a := SourceCreated(repo, plan, path);
        VersionIsListed(p.template);
      }
    }
  }

  lemma BuildsDropsNothing(p: Parameters, t: Tenant, after: Tenant, actions: seq<Action>)
    requires Builds(p, t, after, actions)
    ensures NoDrops(actions) && forall a <- actions :: OursAction(p, a)
  {
    hide TenantHas, Ours, OursAction;
  }

  /** An activation or a retirement leads to the next stage. */
  lemma Carry(before: Repository, repo: Repository, p: Parameters, i: nat, q: Request, after: Tenant) returns (next: Repository)
    requires Stage(before, repo, p, i) && RequestOk(q) && GapFree(TenantsOf(repo), q)
    requires var plan := PlanOf(repo, TenantsOf(repo), q);
             && plan.tenants == TenantsOf(repo)[i := after] && after != TenantsOf(repo)[i] && Clear(repo, plan.actions)
             && Builds(p, TenantsOf(repo)[i], after, plan.actions) && forall a <- plan.actions :: !a.WriteSource?
    requires Joined(TenantsOf(before)[i], after, p)
    ensures Step(repo, q, next) && Stage(before, next, p, i) && TenantsOf(next)[i] == after
  {
    hide Execute, Consistent, RequestOk, PlanOf, FilesAfter, GapFree, Rendered, View, UniqueNames, AllNames, TenantOk, Clear, Step, Valid, ValidName, Joined,
         OursPath, GoldenReadable, Ours, TenantHas, Unanimous, Builds, OursAction, ExactSource, SourceFiles;
    var tenants := TenantsOf(repo);
    var t, plan := tenants[i], PlanOf(repo, tenants, q);
    assert plan.tenants[i] != tenants[i];
    next := ClearStep(repo, q);
    StepIsPlan(repo, q, next);
    StepIsHealthy(repo, q, next);
    PlanAgrees(repo, q);
    BuildsDropsNothing(p, t, after, plan.actions);
    forall path | path != CatalogPath && !OursPath(p, path) ensures (path in next <==> path in before) && (path in before ==> next[path] == before[path]) {
      OthersUntouchedHere(repo, plan, p, path);
    }
    forall path <- next | OursPath(p, path) && !path.Source? ensures (path.Manifest? || path.Kustomization?) && TenantHas(after, path.leaf) {
      LeafListed(repo, plan, p, t, after, path);
    }
    forall leaf | Ours(p, leaf) && TenantHas(after, leaf) ensures Kustomization(leaf) in next {
      LeafComplete(repo, plan, p, t, after, leaf);
    }
    SourceComplete(repo, plan, p);
  }

  // ---------------------------------------------------------------- scaffold

  lemma TeamAt(repo: Repository, i: nat)
    requires Loads(repo) && i < |TenantsOf(repo)|
    ensures Index(TenantsOf(repo), TenantName, TenantsOf(repo)[i].name) == i
  {
    hide Index, Loads, Separate;
    var tenants := TenantsOf(repo);
    UniqueTenants(repo);
    forall a, b | 0 <= a < b < |tenants| ensures TenantName(tenants[a]) != TenantName(tenants[b]) {
      TwoTeams(tenants, a, b);
    }
    OnlyMatch(tenants, TenantName, i);
  }

  lemma NothingInTheWay(before: Repository, p: Parameters, i: nat)
    requires Ready(before, p, i)
    ensures !AnyService(TenantsOf(before), p.name) && (p.withDatabase ==> !AnyDatabase(TenantsOf(before), p.name))
    ensures p.withDatabase ==> !DatabaseActive(TenantsOf(before)[i], p.name)
  {
    hide Loads, Unused, Components, ValidName, Index;
    forall t <- TenantsOf(before) ensures (forall s <- t.services :: s.name != p.name) && (p.withDatabase ==> !HasEntry(t.databases, p.name)) {
      NothingOurs(before, p, t);
    }
    if p.withDatabase && DatabaseActive(TenantsOf(before)[i], p.name) {
      assert TenantsOf(before)[i].databases[Index(TenantsOf(before)[i].databases, EntryName, p.name)] in TenantsOf(before)[i].databases;
    }
  }

  lemma ScaffoldIs(before: Repository, q: Request, i: nat)
    requires Ready(before, q.p, i) && q.operation.ServiceScaffold? && !q.p.createTeam
    ensures var tenants := TenantsOf(before);
            PlanOf(before, tenants, q) == Plan(tenants[i := WithService(tenants[i], q.p)], ScaffoldActions(q.p)) && GapFree(tenants, q)
  {
    hide Loads, Unused, ValidName, Index, AnyService, AnyDatabase, DatabaseActive, WithService, ScaffoldActions;
    TeamAt(before, i);
    NothingInTheWay(before, q.p, i);
    assert [] + ScaffoldActions(q.p) == ScaffoldActions(q.p);
  }

  lemma ScaffoldClear(before: Repository, p: Parameters)
    requires GoldenReadable(before, p.template) && ValidName(p.name, 48)
    ensures Clear(before, ScaffoldActions(p))
  {
    hide ScaffoldActions, ValidName, SourceFiles, AllAllowed, GoldenReadable, TemplateComponents;
    ScaffoldActionsAre(p);
    OwnPathsAllowed(p);
  }

  lemma WithServiceJoins(t0: Tenant, p: Parameters)
    requires (forall a <- t0.applications :: a.name !in Components(p)) && (forall d <- t0.databases :: d.name !in OwnDatabases(p))
    requires (forall s <- t0.services :: s.name != p.name) && !p.createTeam
    ensures Joined(t0, WithService(t0, p), p)
  {
    hide SortBy, Components, Apart, SameBut;
    var after, e, s := WithService(t0, p), NewEntry(DatabaseLeaf(p.name), ""), NewService(p);
    NobodyApart(t0.applications, EntryName, Components(p));
    NobodyApart(t0.databases, EntryName, OwnDatabases(p));
    NobodyApart(t0.services, ServiceName, [p.name]);
    AddSameBut(t0.services, ServiceName, [p.name], s);
    SortSameBut(t0.services, t0.services + [s], ServiceName, [p.name]);
    StaysApart(t0.services, t0.services, after.services, ServiceName, [p.name]);
    if p.withDatabase {
      AddSameBut(t0.databases, EntryName, OwnDatabases(p), e);
      SortSameBut(t0.databases, t0.databases + [e], EntryName, OwnDatabases(p));
      StaysApart(t0.databases, t0.databases, after.databases, EntryName, OwnDatabases(p));
      SortedMembers(t0.databases + [e], EntryName, e);
      assert (t0.databases + [e])[|t0.databases|] == e;
      assert e in after.databases && e.name == p.name;
    }
    SortedMembers(t0.services + [s], ServiceName, s);
    assert (t0.services + [s])[|t0.services|] == s;
    assert s in after.services && NewIn(s, p) by { NewServiceIsNew(p); }
  }

  lemma NewServiceIsNew(p: Parameters)
    requires !p.createTeam
    ensures NewIn(NewService(p), p)
  {
  }

  lemma ScaffoldBuilds(t0: Tenant, p: Parameters)
    requires (forall a <- t0.applications :: a.name !in Components(p)) && (forall d <- t0.databases :: d.name !in OwnDatabases(p))
    ensures Builds(p, t0, WithService(t0, p), ScaffoldActions(p))
    ensures forall leaf :: Ours(p, leaf) ==> !TenantHas(t0, leaf)
  {
    hide SortBy, Components, ScaffoldActions, NewService;
    var e := NewEntry(DatabaseLeaf(p.name), "");
    ScaffoldActionsAre(p);
    NewServicePath(p);
    forall x ensures x in SortBy(t0.databases + [e], EntryName) <==> x in t0.databases + [e] {
      SortedMembers(t0.databases + [e], EntryName, x);
    }
    if p.withDatabase {
      assert (t0.databases + [e])[|t0.databases|] == e;
      assert ScaffoldActions(p)[0] in ScaffoldActions(p);
    }
  }

  lemma NewServicePath(p: Parameters)
    ensures NewService(p).path == p.name && NewService(p).template == p.template
  {
  }

  lemma ScaffoldServes(t0: Tenant, p: Parameters)
    requires (forall a <- t0.applications :: a.name !in Components(p)) && forall s <- t0.services :: s.name != p.name
    ensures Serving(WithService(t0, p), p) && forall s <- WithService(t0, p).services :: s.name == p.name ==> s.lifecycle.Scaffolded?
    ensures |WithService(t0, p).services| == |t0.services| + 1
  {
    hide SortBy, Components, TemplateComponents;
    var s := NewService(p);
    forall x ensures x in SortBy(t0.services + [s], ServiceName) <==> x in t0.services + [s] {
      SortedMembers(t0.services + [s], ServiceName, x);
    }
  }

  lemma ScaffoldStageIn(before: Repository, q: Request, i: nat) returns (next: Repository)
    requires Healthy(before) && RequestOk(q) && q.operation.ServiceScaffold? && !q.p.createTeam && Ready(before, q.p, i)
    ensures Step(before, q, next) && Stage(before, next, q.p, i) && Serving(TenantsOf(next)[i], q.p)
    ensures forall s <- TenantsOf(next)[i].services :: s.name == q.p.name ==> s.lifecycle.Scaffolded?
  {
    hide Execute, Consistent, RequestOk, PlanOf, FilesAfter, GapFree, Rendered, View, UniqueNames, AllNames, TenantOk, Clear, Step, Valid, ValidName, Joined,
         OursPath, GoldenReadable, Ours, TenantHas, Unanimous, Builds, OursAction, ScaffoldActions, WithService, Unused, Serving, SourceFiles, NewService;
    var p, t0 := q.p, TenantsOf(before)[i];
    var after, plan := WithService(t0, p), PlanOf(before, TenantsOf(before), q);
    ScaffoldIs(before, q, i);
    ScaffoldClear(before, p);
    NothingOurs(before, p, t0);
    WithServiceJoins(t0, p);
    ScaffoldBuilds(t0, p);
    ScaffoldServes(t0, p);
    assert plan.tenants[i] != TenantsOf(before)[i];
    next := ClearStep(before, q);
    StepIsPlan(before, q, next);
    StepIsHealthy(before, q, next);
    PlanAgrees(before, q);
    BuildsDropsNothing(p, t0, after, plan.actions);
    UnusedMeans(before, p);
    forall path | path != CatalogPath && !OursPath(p, path) ensures (path in next <==> path in before) && (path in before ==> next[path] == before[path]) {
      OthersUntouchedHere(before, plan, p, path);
    }
    forall path <- next | OursPath(p, path) && !path.Source? ensures (path.Manifest? || path.Kustomization?) && TenantHas(after, path.leaf) {
      LeafListed(before, plan, p, t0, after, path);
    }
    forall leaf | Ours(p, leaf) && TenantHas(after, leaf) ensures Kustomization(leaf) in next {
      LeafComplete(before, plan, p, t0, after, leaf);
    }
    SourceScaffolded(before, plan, p);
  }

  lemma UnusedMeans(before: Repository, p: Parameters)
    requires Unused(before, p)
    ensures forall path <- before :: !OursPath(p, path)
  {
  }

  lemma SourceScaffolded(before: Repository, plan: Plan, p: Parameters)
    requires Execute(before, plan.actions).Ok? && Unanimous(plan.actions) && plan.actions == ScaffoldActions(p) && Unused(before, p)
    ensures ExactSource(FilesAfter(before, plan), p.name, SourceFiles(p.template))
  {
    hide Execute, FilesAfter, SourceFiles, ScaffoldActions, NewService, Unanimous, Ours;
    var next := FilesAfter(before, plan);
    ScaffoldActionsAre(p);
    NewServicePath(p);
    assert WriteSource(NewService(p)) in plan.actions;
    forall f | f in SourceFiles(p.template) ensures Source(p.name, f) in next {
      SourceWritten(before, plan, NewService(p), f);
    }
    forall path <- next | path.Source? && path.service == p.name ensures path.file in SourceFiles(p.template) {
      var a := SourceCreated(before, plan, path);
    }
  }

  // ---------------------------------------------------------------- activate

  lemma {:induction false} OursClear(entries: seq<Entry>, team: string, s: Service, components: seq<string>, names: seq<string>)
    requires (forall e <- entries :: e.name in names ==> e.lifecycle.Active?) && forall c <- components :: c in names
    ensures AllWrites(ComponentActions(team, entries, s, components))
    ensures forall e <- WithComponents(entries, s, components) :: e.name in names ==> e.lifecycle.Active?
    decreases |components|
  {
    hide Index, ComponentFile, ComponentRef;
    if components != [] {
      OursClear(entries, team, s, components[..|components| - 1], names);
    }
  }

  /** The team after an activation, and the pieces it is put together from. */
  lemma ActivationIs(before: Repository, repo: Repository, p: Parameters, i: nat, q: Request)
    returns (j: nat, s: Service, active: Service, after: seq<Entry>, writes: seq<Action>, changed: Tenant)
    requires Stage(before, repo, p, i) && Serving(TenantsOf(repo)[i], p) && q.operation.ServiceActivate? && q.p.team == p.team && q.p.name == p.name
    ensures var t := TenantsOf(repo)[i];
            && j < |t.services| && NewIn(t.services[j], p) && NewIn(s, p) && NewIn(active, p) && active.lifecycle.Active?
            && s == t.services[j].(version := q.p.version) && after == WithComponents(t.applications, s, s.components)
            && changed == t.(applications := SortBy(after, EntryName), services := t.services[j := active])
            && Activated(t.applications, after, writes, q.p.team, s, s.components) && (forall e <- after :: e.name in Components(p) ==> e.lifecycle.Active?)
            && PlanOf(repo, TenantsOf(repo), q) == Plan(TenantsOf(repo)[i := changed], writes + [WriteVersion(active)])
            && (ComponentsFresh(TenantsOf(repo), i, Components(p)) ==> GapFree(TenantsOf(repo), q))
  {
    hide Consistent, UniqueNames, AllNames, TenantOk, Index, SortBy, WithComponents, ComponentActions, Separate, Valid, Activated, DistinctBy, Components,
         ComponentsFresh, Joined, OthersKept, OursListed, Unused, ValidName, GoldenReadable;
    var tenants := TenantsOf(repo);
    j := Places(before, repo, p, i);
    var t := tenants[i];
    assert t.services[j] in t.services;
    s := t.services[j].(version := q.p.version);
    active := s.(lifecycle := Active);
    after, writes := WithComponents(t.applications, s, s.components), ComponentActions(q.p.team, t.applications, s, s.components);
    changed := t.(applications := SortBy(after, EntryName), services := t.services[j := active]);
    SeparateTenant(tenants, i);
    OursClear(t.applications, q.p.team, s, s.components, Components(p));
    ComponentsActivate(t.applications, q.p.team, s, s.components);
  }

  lemma ActivationJoins(t0: Tenant, t: Tenant, p: Parameters, j: nat, s: Service, active: Service, changed: Tenant)
    requires Joined(t0, t, p) && j < |t.services| && NewIn(t.services[j], p) && NewIn(s, p) && NewIn(active, p)
    requires changed == t.(applications := SortBy(WithComponents(t.applications, s, s.components), EntryName), services := t.services[j := active])
    ensures Joined(t0, changed, p)
  {
    hide SortBy, Components, Apart, SameBut, WithComponents, NewIn;
    NewInName(t.services[j], p);
    NewInName(s, p);
    NewInName(active, p);
    ComponentsSameBut(t.applications, s, s.components, Components(p));
    SortSameBut(t.applications, WithComponents(t.applications, s, s.components), EntryName, Components(p));
    StaysApart(t0.applications, t.applications, changed.applications, EntryName, Components(p));
    UpdateSameBut(t.services, ServiceName, [p.name], j, active);
    StaysApart(t0.services, t.services, changed.services, ServiceName, [p.name]);
    assert changed.services[j] == active;
  }

  lemma ActivationBuilds(t: Tenant, p: Parameters, j: nat, s: Service, active: Service, after: seq<Entry>, writes: seq<Action>, team: string, changed: Tenant)
    requires j < |t.services| && NewIn(s, p) && NewIn(active, p) && Activated(t.applications, after, writes, team, s, s.components)
    requires changed == t.(applications := SortBy(after, EntryName), services := t.services[j := active])
    ensures Builds(p, t, changed, writes + [WriteVersion(active)])
  {
    hide SortBy, Components, ComponentFile, HasEntry;
    forall name ensures HasEntry(changed.applications, name) <==> HasEntry(after, name) {
      if HasEntry(after, name) {
        SortedHas(after, name);
      } else if HasEntry(changed.applications, name) {
        SortedHad(after, name);
      }
    }
    forall name | HasEntry(t.applications, name) ensures HasEntry(after, name) {
      EntryStays(t.applications, after, writes, team, s, name);
    }
    var actions := writes + [WriteVersion(active)];
    forall leaf | Ours(p, leaf) && TenantHas(changed, leaf) ensures TenantHas(t, leaf) || exists a <- actions :: a.WriteLeaf? && a.leaf == leaf {
      if leaf.AppLeaf? {
        assert WriteLeaf(leaf, ComponentFile(team, s, leaf.name)) in actions;
      }
    }
  }

  lemma SortedHad(entries: seq<Entry>, name: string)
    requires HasEntry(SortBy(entries, EntryName), name)
    ensures HasEntry(entries, name)
  {
    hide SortBy;
    var e :| e in SortBy(entries, EntryName) && e.name == name;
    SortedMembers(entries, EntryName, e);
  }

  lemma ActivationServes(t: Tenant, p: Parameters, j: nat, active: Service, after: seq<Entry>, changed: Tenant)
    requires Serving(t, p) && j < |t.services| && active.lifecycle.Active? && forall e <- after :: e.name in Components(p) ==> e.lifecycle.Active?
    requires changed == t.(applications := SortBy(after, EntryName), services := t.services[j := active])
    ensures Serving(changed, p)
  {
    hide SortBy, Components;
    forall e ensures e in SortBy(after, EntryName) <==> e in after {
      SortedMembers(after, EntryName, e);
    }
    forall s <- changed.services | s.name == p.name ensures !s.lifecycle.Retiring? {
      var k :| 0 <= k < |t.services| && changed.services[k] == s;
    }
  }

  /** A listed component of another team would have left files that only the service has. */
  lemma ComponentsAreOurs(before: Repository, repo: Repository, p: Parameters, i: nat)
    requires Stage(before, repo, p, i)
    ensures ComponentsFresh(TenantsOf(repo), i, Components(p))
  {
    hide Loads, Consistent, Unused, Components, Joined, OthersKept, OursListed, ValidName, GoldenReadable;
    var tenants := TenantsOf(repo);
    forall k, c | 0 <= k < |tenants| && k != i && c in Components(p) ensures !HasEntry(tenants[k].applications, c) {
      assert tenants[k] == TenantsOf(before)[k];
      NothingOurs(before, p, tenants[k]);
    }
  }

  lemma ActivationClear(repo: Repository, p: Parameters, t: Tenant, after: seq<Entry>, writes: seq<Action>, team: string, s: Service, active: Service)
    requires ValidName(p.name, 48) && NewIn(s, p) && NewIn(active, p) && Activated(t.applications, after, writes, team, s, s.components)
    ensures Clear(repo, writes + [WriteVersion(active)]) && forall a <- writes + [WriteVersion(active)] :: !a.WriteSource?
  {
    hide ValidName, TemplateComponents, ComponentFile, AllAllowed, SourceFiles;
    OwnPathsAllowed(p);
  }

  lemma ActivateStageIn(before: Repository, repo: Repository, p: Parameters, i: nat, q: Request) returns (next: Repository)
    requires Stage(before, repo, p, i) && Serving(TenantsOf(repo)[i], p)
    requires forall s <- TenantsOf(repo)[i].services :: s.name == p.name ==> s.lifecycle.Scaffolded?
    requires RequestOk(q) && q.operation.ServiceActivate? && q.p.team == p.team && q.p.name == p.name
    ensures Step(repo, q, next) && Stage(before, next, p, i) && Serving(TenantsOf(next)[i], p)
  {
    hide Loads, Consistent, RequestOk, PlanOf, GapFree, Step, Joined, Serving, Unused, OthersKept, OursListed, Builds, Clear, SortBy, Activated,
         ValidName, GoldenReadable, Components, NewIn, WithComponents;
    var t := TenantsOf(repo)[i];
    var j, s, active, after, writes, changed := ActivationIs(before, repo, p, i, q);
    NewInName(t.services[j], p);
    assert t.services[j] in t.services && changed.services[j] == active;
    ActivationJoins(TenantsOf(before)[i], t, p, j, s, active, changed);
    ActivationBuilds(t, p, j, s, active, after, writes, q.p.team, changed);
    ActivationServes(t, p, j, active, after, changed);
    ComponentsAreOurs(before, repo, p, i);
    ActivationClear(repo, p, t, after, writes, q.p.team, s, active);
    next := Carry(before, repo, p, i, q, changed);
  }

  // ---------------------------------------------------------------- retire

  lemma RetirementIs(before: Repository, repo: Repository, p: Parameters, i: nat, q: Request) returns (j: nat)
    requires Stage(before, repo, p, i) && Serving(TenantsOf(repo)[i], p) && q.operation.ServiceRetire? && q.p.team == p.team && q.p.name == p.name
    ensures var t, plan := TenantsOf(repo)[i], PlanOf(repo, TenantsOf(repo), q);
            && j < |t.services| && NewIn(t.services[j], p) && !t.services[j].lifecycle.Retiring? && GapFree(TenantsOf(repo), q)
            && plan.tenants == TenantsOf(repo)[i := RetireService(t, j, q.id)]
            && (forall a <- plan.actions :: a.Approve? && TenantHas(t, a.leaf) && Ours(p, a.leaf))
  {
    hide Loads, Consistent, Index, RetireService, ApproveNamed, OwnedDatabase, Separate, Derived, Components, Joined, OthersKept, OursListed, Unused, ValidName,
         GoldenReadable, TenantHas;
    var tenants := TenantsOf(repo);
    j := Places(before, repo, p, i);
    var t := tenants[i];
    assert t.services[j] in t.services;
    RetirementActions(tenants, i, j, q);
    OwnedIsReferenced(t, t.services[j]);
  }

  lemma RetirementJoins(t0: Tenant, t: Tenant, p: Parameters, j: nat, id: string)
    requires Joined(t0, t, p) && j < |t.services| && NewIn(t.services[j], p) && DistinctBy(t.applications, EntryName)
    ensures Joined(t0, RetireService(t, j, id), p)
    ensures forall leaf :: TenantHas(t, leaf) <==> TenantHas(RetireService(t, j, id), leaf)
  {
    hide Components, Apart, SameBut, RetireNamed, Index, NamedRetired, DistinctBy, HasEntry;
    var s, r, k := t.services[j], RetireService(t, j, id), OwnedDatabase(t, t.services[j]);
    OwnedIsReferenced(t, s);
    RetiredSameBut(t.applications, s.components, id, Components(p));
    StaysApart(t0.applications, t.applications, r.applications, EntryName, Components(p));
    if k >= 0 {
      UpdateSameBut(t.databases, EntryName, OwnDatabases(p), k, Retired(t.databases[k], id));
      StaysApart(t0.databases, t.databases, r.databases, EntryName, OwnDatabases(p));
    }
    UpdateSameBut(t.services, ServiceName, [p.name], j, RetiredService(s, id));
    StaysApart(t0.services, t.services, r.services, ServiceName, [p.name]);
    assert r.services[j] == RetiredService(s, id) && NewIn(r.services[j], p);
    NamesRetire(t.applications, s.components, id);
    SameNames(t.applications, r.applications, s.components, id);
    forall name ensures HasEntry(t.databases, name) <==> HasEntry(r.databases, name) {
      SameDatabases(t.databases, r.databases, k, id, name);
    }
  }

  lemma SameNames(before: seq<Entry>, after: seq<Entry>, names: seq<string>, id: string)
    requires NamedRetired(before, after, names, id)
    ensures forall name :: HasEntry(before, name) <==> HasEntry(after, name)
  {
    forall name | HasEntry(before, name) ensures HasEntry(after, name) {
      NameStays(before, after, name);
    }
  }

  lemma SameDatabases(before: seq<Entry>, after: seq<Entry>, k: int, id: string, name: string)
    requires k < |before| && after == if k < 0 then before else before[k := Retired(before[k], id)]
    ensures HasEntry(before, name) <==> HasEntry(after, name)
  {
    if HasEntry(before, name) {
      NameStays(before, after, name);
    }
    if HasEntry(after, name) {
      NameStays(after, before, name);
    }
  }

  /** Everything of the service retires. */
  lemma RetirementLeaves(t: Tenant, p: Parameters, j: nat, id: string)
    requires j < |t.services| && NewIn(t.services[j], p) && Serving(t, p) && (p.withDatabase ==> HasEntry(t.databases, p.name))
    requires DistinctBy(t.applications, EntryName) && DistinctBy(t.databases, EntryName) && DistinctBy(t.services, ServiceName) && p.name != ""
    ensures Leaving(RetireService(t, j, id), p, id) && RetireService(t, j, id) != t
  {
    hide RetireNamed, NamedRetired, TemplateComponents, Index;
    var s, r, k := t.services[j], RetireService(t, j, id), OwnedDatabase(t, t.services[j]);
    NamesRetire(t.applications, s.components, id);
    OursRetired(t.applications, r.applications, Components(p), id);
    assert r.services[j] == RetiredService(s, id) && s in t.services;
    forall x <- r.services | x.name == p.name ensures x == r.services[j] {
      var m :| 0 <= m < |t.services| && r.services[m] == x;
      assert ServiceName(t.services[m]) == ServiceName(t.services[j]);
    }
    if p.withDatabase {
      var e :| e in t.databases && e.name == p.name;
      var m :| 0 <= m < |t.databases| && t.databases[m] == e;
      FoundBy(t.databases, EntryName, p.name);
      assert EntryName(t.databases[m]) == p.name && k >= 0;
      forall d <- r.databases | d.name == p.name ensures d == r.databases[k] {
        var n :| 0 <= n < |t.databases| && r.databases[n] == d;
        assert EntryName(t.databases[n]) == EntryName(t.databases[k]);
      }
    }
  }

  lemma OursRetired(before: seq<Entry>, after: seq<Entry>, names: seq<string>, id: string)
    requires NamedRetired(before, after, names, id)
    ensures forall a <- after :: a.name in names ==> a.lifecycle.Retiring? && a.request == id
  {
  }

  lemma LeafAllowed(p: Parameters, leaf: Leaf)
    requires ValidName(p.name, 48) && Ours(p, leaf)
    ensures Allowed(Manifest(leaf))
  {
    hide ValidName, TemplateComponents, SourceFiles, AllAllowed;
    OwnPathsAllowed(p);
  }

  lemma RetirementClear(repo: Repository, t: Tenant, p: Parameters, actions: seq<Action>)
    requires Healthy(repo) && t in TenantsOf(repo) && ValidName(p.name, 48)
    requires forall a <- actions :: a.Approve? && TenantHas(t, a.leaf) && Ours(p, a.leaf)
    ensures Clear(repo, actions)
  {
    hide Healthy, ValidName, TenantHas, Ours;
    forall a <- actions ensures Blocked(repo, a).None? {
      LeafAllowed(p, a.leaf);
      LeafPresent(repo, t, a.leaf);
    }
  }

  lemma ApprovalsBuild(p: Parameters, t: Tenant, after: Tenant, actions: seq<Action>)
    requires (forall a <- actions :: a.Approve? && TenantHas(t, a.leaf) && Ours(p, a.leaf)) && forall leaf :: TenantHas(t, leaf) <==> TenantHas(after, leaf)
    ensures Builds(p, t, after, actions) && forall a <- actions :: !a.WriteSource?
  {
    hide TenantHas, Ours;
  }

  lemma RetireStageIn(before: Repository, repo: Repository, p: Parameters, i: nat, q: Request) returns (next: Repository)
    requires Stage(before, repo, p, i) && Serving(TenantsOf(repo)[i], p)
    requires RequestOk(q) && q.operation.ServiceRetire? && q.p.team == p.team && q.p.name == p.name
    ensures Step(repo, q, next) && Stage(before, next, p, i) && Leaving(TenantsOf(next)[i], p, q.id)
  {
    hide Loads, Consistent, RequestOk, PlanOf, GapFree, Step, Serving, Unused, OthersKept, OursListed, Builds, Clear, GoldenReadable, Components,
         NewIn, RetireService, Apart, Leaving, DistinctBy, Separate, TenantHas, Ours, Offers;
    var t := TenantsOf(repo)[i];
    var j := RetirementIs(before, repo, p, i, q);
    var _ := Places(before, repo, p, i);
    SeparateTenant(TenantsOf(repo), i);
    assert p.name != "";
    RetirementJoins(TenantsOf(before)[i], t, p, j, q.id);
    RetirementLeaves(t, p, j, q.id);
    RetirementClear(repo, t, p, PlanOf(repo, TenantsOf(repo), q).actions);
    ApprovalsBuild(p, t, RetireService(t, j, q.id), PlanOf(repo, TenantsOf(repo), q).actions);
    next := Carry(before, repo, p, i, q, RetireService(t, j, q.id));
  }

  // ---------------------------------------------------------------- finalize

  lemma {:induction false} OursDrop(entries: seq<Entry>, done: seq<string>, names: seq<string>, p: Parameters)
    requires (forall e <- entries :: e.name in names ==> e.lifecycle.Retiring? && e.request == p.deletionRequest) && forall c <- done :: c in names
    ensures AllWrites(DropNamed(entries, done, p))
    decreases |done|
  {
    hide Index;
    if done != [] {
      OursDrop(entries, done[..|done| - 1], names, p);
    }
  }

  lemma OwnedIsOurs(t: Tenant, p: Parameters, s: Service)
    requires NewIn(s, p) && p.name != "" && (p.withDatabase ==> HasEntry(t.databases, p.name))
    ensures OwnedDatabase(t, s) >= 0 <==> p.withDatabase
    ensures p.withDatabase ==> t.databases[OwnedDatabase(t, s)].name == p.name
  {
    hide Index, TemplateComponents;
    if p.withDatabase {
      FoundBy(t.databases, EntryName, p.name);
      var e :| e in t.databases && e.name == p.name;
      var k :| 0 <= k < |t.databases| && t.databases[k] == e;
      assert EntryName(t.databases[k]) == p.name;
    }
  }

  lemma FinalizationGoes(tenants: seq<Tenant>, i: nat, p: Parameters, j: nat, q: Request)
    requires i < |tenants| && j < |tenants[i].services| && NewIn(tenants[i].services[j], p) && Leaving(tenants[i], p, q.p.deletionRequest)
    requires Index(tenants[i].services, ServiceName, q.p.name) == j && p.name != "" && (p.withDatabase ==> HasEntry(tenants[i].databases, p.name))
    ensures IsRetiringUnder(tenants[i].services[j].lifecycle, tenants[i].services[j].request, q.p) && AllWrites(PlanServiceFinalize(tenants, i, q).actions)
    ensures PlanServiceFinalize(tenants, i, q).tenants == tenants[i := FinalizeService(tenants[i], tenants[i].services[j])]
  {
    hide Index, DropNamed, OwnedDatabase, FinalizeService, TemplateComponents;
    var t, s := tenants[i], tenants[i].services[j];
    assert s in t.services;
    OwnedIsOurs(t, p, s);
    OursDrop(t.applications, s.components, Components(p), q.p);
    if p.withDatabase {
      assert t.databases[OwnedDatabase(t, s)] in t.databases;
    }
  }

  lemma FinalizationIs(before: Repository, repo: Repository, p: Parameters, i: nat, q: Request) returns (j: nat)
    requires Stage(before, repo, p, i) && Leaving(TenantsOf(repo)[i], p, q.p.deletionRequest) && p.name != ""
    requires q.operation.ServiceFinalize? && q.p.team == p.team && q.p.name == p.name
    ensures var t, plan := TenantsOf(repo)[i], PlanOf(repo, TenantsOf(repo), q);
            && j < |t.services| && NewIn(t.services[j], p) && Index(t.services, ServiceName, p.name) == j
            && plan.tenants == TenantsOf(repo)[i := FinalizeService(t, t.services[j])]
            && (forall a <- plan.actions :: (a.DropLeaf? && TenantHas(t, a.leaf) && Ours(p, a.leaf)) || a == DropSource(t.services[j]))
            && (forall leaf :: TenantHas(t, leaf) && Ours(p, leaf) ==> DropLeaf(leaf) in plan.actions) && DropSource(t.services[j]) in plan.actions
            && Index(TenantsOf(repo), TenantName, p.team) == i
  {
    hide Loads, Consistent, Index, FinalizeService, DropNamed, OwnedDatabase, Separate, Derived, Components, Joined, OthersKept, OursListed, Unused, ValidName,
         GoldenReadable, TenantHas, Leaving, IsRetiringUnder, NewIn;
    var tenants := TenantsOf(repo);
    j := Places(before, repo, p, i);
    var t := tenants[i];
    assert p.withDatabase ==> HasEntry(t.databases, p.name) by { JoinedMeans(TenantsOf(before)[i], t, p); }
    FinalizationGoes(tenants, i, p, j, q);
    FinalizationActions(repo, tenants, i, j, q);
    NewInName(t.services[j], p);
    OwnedIsOurs(t, p, t.services[j]);
    DropsAreOurs(t, p, t.services[j], OwnedDatabase(t, t.services[j]), PlanServiceFinalize(tenants, i, q).actions);
  }

  lemma JoinedMeans(t0: Tenant, t: Tenant, p: Parameters)
    requires Joined(t0, t, p)
    ensures p.withDatabase ==> HasEntry(t.databases, p.name)
  {
    hide Apart, Offers, HasEntry;
  }

  lemma DropsAreOurs(t: Tenant, p: Parameters, s: Service, k: int, actions: seq<Action>)
    requires -1 <= k < |t.databases| && (k >= 0 <==> p.withDatabase) && (k >= 0 ==> t.databases[k].name == p.name) && s.components == Components(p)
    requires (forall a <- actions :: (a.DropLeaf? && TenantHas(t, a.leaf)) || a == DropSource(s))
    requires (forall a <- actions :: a.DropLeaf? && a.leaf.AppLeaf? ==> a.leaf.name in s.components)
    requires (forall a <- actions :: a.DropLeaf? && a.leaf.DatabaseLeaf? ==> k >= 0 && a.leaf.name == t.databases[k].name)
    requires forall a <- actions :: a.DropLeaf? ==> !a.leaf.TeamLeaf?
    requires (forall e <- t.applications :: e.name in s.components ==> DropLeaf(AppLeaf(e.name)) in actions)
    requires k >= 0 ==> DropLeaf(DatabaseLeaf(t.databases[k].name)) in actions
    ensures forall a <- actions :: (a.DropLeaf? && TenantHas(t, a.leaf) && Ours(p, a.leaf)) || a == DropSource(s)
    ensures forall leaf :: TenantHas(t, leaf) && Ours(p, leaf) ==> DropLeaf(leaf) in actions
  {
    hide Components;
  }

  lemma FinalizationGapFree(before: Repository, repo: Repository, p: Parameters, i: nat, j: nat, q: Request)
    requires Stage(before, repo, p, i) && q.operation.ServiceFinalize? && q.p.team == p.team && q.p.name == p.name && p.name != ""
    requires j < |TenantsOf(repo)[i].services| && NewIn(TenantsOf(repo)[i].services[j], p)
    requires Index(TenantsOf(repo)[i].services, ServiceName, p.name) == j && Index(TenantsOf(repo), TenantName, p.team) == i
    ensures GapFree(TenantsOf(repo), q)
  {
    hide Loads, Consistent, Index, Components, OthersKept, OursListed, Unused, ValidName, GoldenReadable, Apart;
    var t0, t, s := TenantsOf(before)[i], TenantsOf(repo)[i], TenantsOf(repo)[i].services[j];
    if p.withDatabase {
      NothingRefers(before, p, t0);
      forall a <- t.applications | a.name !in s.components ensures a.databaseRef != p.name {
        ApartMember(t0.applications, t.applications, EntryName, Components(p), a);
      }
      forall x <- t.services | x.name != s.name ensures x.databaseRef != p.name {
        ApartMember(t0.services, t.services, ServiceName, [p.name], x);
      }
    }
  }

  lemma DropClear(repo: Repository, t: Tenant, p: Parameters, leaf: Leaf)
    requires OursListed(repo, t, p) && Ours(p, leaf) && TenantHas(t, leaf) && Allowed(Manifest(leaf)) && Manifest(leaf) in repo
    ensures Blocked(repo, DropLeaf(leaf)).None?
  {
    hide TenantHas, ValidName, SourceFiles, Ours, HasEntry;
    assert InLeaf(Manifest(leaf), leaf);
  }

  lemma SourceClear(before: Repository, repo: Repository, p: Parameters, i: nat, s: Service)
    requires Stage(before, repo, p, i) && NewIn(s, p)
    ensures Blocked(repo, DropSource(s)).None?
  {
    hide Loads, Healthy, Joined, ValidName, TenantHas, TemplateComponents, SourceFiles, AllAllowed, Unused;
    OwnPathsAllowed(p);
    assert forall test :: !OursPath(p, Golden(test));
  }

  lemma FinalizationClear(before: Repository, repo: Repository, p: Parameters, i: nat, s: Service, actions: seq<Action>)
    requires Stage(before, repo, p, i) && NewIn(s, p)
    requires forall a <- actions :: (a.DropLeaf? && TenantHas(TenantsOf(repo)[i], a.leaf) && Ours(p, a.leaf)) || a == DropSource(s)
    ensures Clear(repo, actions)
  {
    hide Loads, Consistent, Joined, ValidName, TenantHas, Ours, Unused, OursListed, OthersKept, GoldenReadable, NewIn;
    var t := TenantsOf(repo)[i];
    forall a <- actions ensures Blocked(repo, a).None? {
      if a.DropLeaf? {
        LeafAllowed(p, a.leaf);
        LeafPresent(repo, t, a.leaf);
        DropClear(repo, t, p, a.leaf);
      } else {
        SourceClear(before, repo, p, i, s);
      }
    }
  }

  /** The service's files are gone. */
  lemma OursGo(repo: Repository, plan: Plan, t: Tenant, p: Parameters, s: Service, path: Path)
    requires Execute(repo, plan.actions).Ok? && Unanimous(plan.actions) && OursListed(repo, t, p) && NewIn(s, p) && OursPath(p, path)
    requires forall a <- plan.actions :: a.DropLeaf? || a.DropSource?
    requires (forall leaf :: TenantHas(t, leaf) && Ours(p, leaf) ==> DropLeaf(leaf) in plan.actions) && DropSource(s) in plan.actions
    ensures path !in FilesAfter(repo, plan)
  {
    hide Execute, FilesAfter, Unanimous, TenantHas, Ours, ExactSource, Components;
    if path !in repo {
      if path in FilesAfter(repo, plan) {
        CreatedBy(repo, plan, path);
      }
    } else if path.Source? {
      DroppedSource(repo, plan, s, path);
    } else {
      DroppedLeaf(repo, plan, path.leaf);
    }
  }

  lemma FinalizationIsOurs(t: Tenant, p: Parameters, s: Service, actions: seq<Action>)
    requires NewIn(s, p) && forall a <- actions :: (a.DropLeaf? && TenantHas(t, a.leaf) && Ours(p, a.leaf)) || a == DropSource(s)
    ensures forall a <- actions :: OursAction(p, a) && (a.DropLeaf? || a.DropSource?)
  {
    hide TenantHas, Ours;
  }

  /** The same tenant, up to the order of its entries. */
  predicate SameTenant(a: Tenant, b: Tenant) {
    && b == a.(applications := b.applications, databases := b.databases, services := b.services)
    && multiset(b.applications) == multiset(a.applications) && multiset(b.databases) == multiset(a.databases) && multiset(b.services) == multiset(a.services)
  }

  /** Every file but the catalog is as before, and so is every tenant, up to the order of the team's entries. */
  ghost predicate TeamRestored(before: Repository, after: Repository, i: nat) {
    && Loads(before) && Loads(after) && i < |TenantsOf(before)| == |TenantsOf(after)|
    && (forall k :: 0 <= k < |TenantsOf(before)| && k != i ==> TenantsOf(after)[k] == TenantsOf(before)[k])
    && SameTenant(TenantsOf(before)[i], TenantsOf(after)[i])
    && forall path :: path != CatalogPath ==> (path in after <==> path in before) && (path in before ==> after[path] == before[path])
  }

  lemma FinalizedIsSame(t0: Tenant, t: Tenant, p: Parameters, s: Service)
    requires Joined(t0, t, p) && NewIn(s, p)
    ensures SameTenant(t0, FinalizeService(t, s))
  {
    hide Without, Components;
    if !p.withDatabase {
      NobodyApart(t.databases, EntryName, OwnDatabases(p));
    }
  }

  lemma FinalizeStageIn(before: Repository, repo: Repository, p: Parameters, i: nat, q: Request) returns (next: Repository)
    requires Stage(before, repo, p, i) && Leaving(TenantsOf(repo)[i], p, q.p.deletionRequest)
    requires RequestOk(q) && q.operation.ServiceFinalize? && q.p.team == p.team && q.p.name == p.name
    ensures Step(repo, q, next) && TeamRestored(before, next, i)
  {
    hide Consistent, Execute, Valid, RequestOk, PlanOf, FilesAfter, Rendered, View, GapFree, Step, Joined, OursPath, OursListed, Clear, GoldenReadable, Components,
         NewIn, FinalizeService, Leaving, TenantHas, Ours, Unanimous, SameTenant, Index, OursAction;
    var tenants := TenantsOf(repo);
    var t, plan := tenants[i], PlanOf(repo, tenants, q);
    assert p.name != "";
    var j := FinalizationIs(before, repo, p, i, q);
    var s := t.services[j];
    FinalizationGapFree(before, repo, p, i, j, q);
    FinalizationClear(before, repo, p, i, s, plan.actions);
    FinalizedIsSame(TenantsOf(before)[i], t, p, s);
    FewerServices(t, s);
    assert plan.tenants[i] != tenants[i];
    next := ClearStep(repo, q);
    StepIsPlan(repo, q, next);
    StepIsHealthy(repo, q, next);
    PlanAgrees(repo, q);
    FinalizationIsOurs(t, p, s, plan.actions);
    forall path | path != CatalogPath ensures (path in next <==> path in before) && (path in before ==> next[path] == before[path]) {
      if OursPath(p, path) {
        OursGo(repo, plan, t, p, s, path);
      } else {
        OthersUntouchedHere(repo, plan, p, path);
      }
    }
  }

  lemma FewerServices(t: Tenant, s: Service)
    requires s in t.services
    ensures FinalizeService(t, s) != t
  {
    hide Without;
    assert s !in FinalizeService(t, s).services;
  }

  // ---------------------------------------------------------------- the whole life

  /** From any healthy repository with an active team that can generate the template and
      has no file of the service, four well-formed requests go through, whatever they ask
      for besides, and leave every file and every tenant as it was, up to order. */
  lemma ServiceComesAndGoesInTeam(r0: Repository, i: nat, scaffold: Request, activate: Option<Request>, retire: Request, finalize: Request)
    returns (r1: Repository, r2: Repository, r3: Repository, r4: Repository)
    requires Healthy(r0) && RequestOk(scaffold) && scaffold.operation.ServiceScaffold? && !scaffold.p.createTeam
    requires i < |TenantsOf(r0)| && TenantsOf(r0)[i].name == scaffold.p.team && TenantsOf(r0)[i].lifecycle.Active?
    requires Unused(r0, scaffold.p) && GoldenReadable(r0, scaffold.p.template)
    requires activate.Some? ==> RequestOk(activate.value) && activate.value.operation.ServiceActivate?
                                && activate.value.p.team == scaffold.p.team && activate.value.p.name == scaffold.p.name
    requires RequestOk(retire) && retire.operation.ServiceRetire? && retire.p.team == scaffold.p.team && retire.p.name == scaffold.p.name
    requires RequestOk(finalize) && finalize.operation.ServiceFinalize? && finalize.p.team == scaffold.p.team && finalize.p.name == scaffold.p.name
    requires finalize.p.deletionRequest == retire.id
    ensures Step(r0, scaffold, r1) && (match activate case None => r2 == r1 case Some(q) => Step(r1, q, r2))
    ensures Step(r2, retire, r3) && Step(r3, finalize, r4) && TeamRestored(r0, r4, i)
  {
    hide Loads, Consistent, RequestOk, GoldenReadable, Step, TeamRestored, Serving, Leaving, Joined, ValidName, OthersKept, OursListed, Unused;
    var p := scaffold.p;
    NameFits(scaffold);
    r1 := ScaffoldStageIn(r0, scaffold, i);
    r2 := r1;
    if activate.Some? {
      r2 := ActivateStageIn(r0, r1, p, i, activate.value);
    }
    r3 := RetireStageIn(r0, r2, p, i, retire);
    r4 := FinalizeStageIn(r0, r3, p, i, finalize);
  }
}
