/** Scaffolding a service with its own team, perhaps activating it, retiring it and
    finalizing it under the retirement's request leaves the repository as it was. */
module ScaffoldRoundTrip {
  import opened Wrappers
  import opened Catalog
  import opened CatalogFacts
  import opened ChangePlan
  import opened ChangeSets
  import opened OverlayFacts
  import opened RenderSafety
  import opened RenderAccounting
  import opened ServiceAccounting
  import opened CatalogPreserved
  import opened OperationSoundness
  import opened ServiceSoundness
  import opened RenderRuns

  // ---------------------------------------------------------------- creations and removals

  /** A path appears only where an action writes. */
  lemma CreatedBy(repo: Repository, plan: Plan, p: Path)
    requires Execute(repo, plan.actions).Ok? && p != CatalogPath && p in FilesAfter(repo, plan) && p !in repo
    ensures exists a <- plan.actions :: About(a, p) && (a.WriteLeaf? || a.WriteSource? || a.WriteVersion?)
  {
    hide Execute, FilesAfter, About;
    PathAfter(repo, plan, p);
    CreationHasWriter(repo, plan.actions, p);
  }

  lemma {:induction false} CreationHasWriter(repo: Repository, actions: seq<Action>, p: Path)
    requires Execute(repo, actions).Ok? && p !in repo && p in Execute(repo, actions).value && Execute(repo, actions).value[p].content.Some?
    ensures exists a <- actions :: About(a, p) && (a.WriteLeaf? || a.WriteSource? || a.WriteVersion?)
    decreases |actions|
  {
    hide Blocked, ChangePlan.Effect, About;
    var init, last := actions[..|actions| - 1], actions[|actions| - 1];
    if p in ChangePlan.Effect(repo, last) {
      EffectIsAbout(repo, last, p);
      OnlyWritesCreate(repo, last, p);
      assert last in actions;
    } else {
      CreationHasWriter(repo, init, p);
    }
  }

  lemma OnlyWritesCreate(repo: Repository, a: Action, p: Path)
    requires Blocked(repo, a).None? && p in ChangePlan.Effect(repo, a) && p !in repo && ChangePlan.Effect(repo, a)[p].content.Some?
    ensures a.WriteLeaf? || a.WriteSource? || a.WriteVersion?
  {
    hide SourceFiles, ValidName, LeafExists, OnlyGenerated, GoldenReadable, AllAllowed;
    if a.DropSource? {
      RemoveFilesAt(repo, a.service.path, SourceFiles(a.service.template), p);
    }
  }

  lemma DroppedLeaf(repo: Repository, plan: Plan, leaf: Leaf)
    requires Execute(repo, plan.actions).Ok? && Unanimous(plan.actions) && DropLeaf(leaf) in plan.actions
    ensures Manifest(leaf) !in FilesAfter(repo, plan) && Kustomization(leaf) !in FilesAfter(repo, plan)
  {
    hide Execute, FilesAfter, Unanimous, ValidName, LeafExists, OnlyGenerated;
    OnlyAction(plan.actions, DropLeaf(leaf), Manifest(leaf));
    OneDecides(repo, plan.actions, DropLeaf(leaf), Manifest(leaf));
    PathAfter(repo, plan, Manifest(leaf));
    OnlyAction(plan.actions, DropLeaf(leaf), Kustomization(leaf));
    OneDecides(repo, plan.actions, DropLeaf(leaf), Kustomization(leaf));
    PathAfter(repo, plan, Kustomization(leaf));
  }

  /** A dropped source leaves no file behind. */
  lemma DroppedSource(repo: Repository, plan: Plan, s: Service, p: Path)
    requires Execute(repo, plan.actions).Ok? && Unanimous(plan.actions) && DropSource(s) in plan.actions
    requires p.Source? && p.service == s.path && p in repo
    ensures p !in FilesAfter(repo, plan)
  {
    hide Execute, FilesAfter, Unanimous, SourceFiles, AllAllowed, GoldenReadable;
    OnlyAction(plan.actions, DropSource(s), p);
    OneDecides(repo, plan.actions, DropSource(s), p);
    PathAfter(repo, plan, p);
    RemoveFilesAt(repo, s.path, SourceFiles(s.template), p);
  }

  // ---------------------------------------------------------------- the service's own paths

  predicate OwnLeafOf(p: Parameters, leaf: Leaf) {
    match leaf
    case TeamLeaf(name) => name == p.name
    case DatabaseLeaf(name) => name == p.name
    case AppLeaf(name) => name in TemplateComponents(p.name, p.template)
  }

  predicate Own(p: Parameters, path: Path) {
    || ((path.Manifest? || path.Kustomization? || path.Extra?) && OwnLeafOf(p, path.leaf))
    || (path.Source? && path.service == p.name)
  }

  /** An action on nothing but the service's own files. */
  predicate OwnAction(p: Parameters, a: Action) {
    (ActionLeaf(a).Some? ==> OwnLeafOf(p, ActionLeaf(a).value)) && (ActionSource(a).Some? ==> ActionSource(a).value == p.name)
  }

  lemma OthersUntouched(repo: Repository, plan: Plan, p: Parameters, path: Path)
    requires Execute(repo, plan.actions).Ok? && (forall a <- plan.actions :: OwnAction(p, a)) && !Own(p, path) && path != CatalogPath
    ensures (path in FilesAfter(repo, plan) <==> path in repo) && (path in repo ==> FilesAfter(repo, plan)[path] == repo[path])
  {
    hide Execute, FilesAfter, OwnLeafOf;
    UntouchedAfter(repo, plan, path);
  }

  predicate NewServiceOf(s: Service, p: Parameters) {
    && s.name == s.path == p.name && p.name != "" && s.template == p.template && s.components == TemplateComponents(p.name, p.template)
    && s.ownsTeam && s.ownsDatabase == p.withDatabase && s.databaseRef == (if p.withDatabase then p.name else "")
  }

  /** The team of the service, whatever stage it is in. */
  predicate NewTeam(t: Tenant, p: Parameters) {
    t.name == p.name && |t.services| == 1 && NewServiceOf(t.services[0], p) && (p.withDatabase ==> HasEntry(t.databases, p.name))
  }

  /** The service's own files all belong to something the catalog lists. */
  ghost predicate Owned(repo: Repository, t: Tenant, p: Parameters) {
    forall path <- repo :: Own(p, path) ==>
      path.Source? || (!path.Extra? && (path.leaf.TeamLeaf? || (path.leaf.DatabaseLeaf? && p.withDatabase)
                                        || (path.leaf.AppLeaf? && HasEntry(t.applications, path.leaf.name))))
  }

  /** Besides tenant `i` the catalog has the tenants it had, in some order. */
  predicate Beside(before: seq<Tenant>, tenants: seq<Tenant>, i: nat) {
    i < |tenants| && multiset(tenants[..i] + tenants[i + 1..]) == multiset(before)
  }

  /** The repository while it hosts the service: otherwise as before. */
  ghost predicate Hosts(before: Repository, repo: Repository, p: Parameters, i: nat) {
    && Loads(before) && Healthy(repo) && i < |TenantsOf(repo)| && Beside(TenantsOf(before), TenantsOf(repo), i)
    && NewTeam(TenantsOf(repo)[i], p) && Owned(repo, TenantsOf(repo)[i], p)
    && forall path :: path != CatalogPath && !Own(p, path) ==>
         (path in repo <==> path in before) && (path in before ==> repo[path] == before[path])
  }

  /** No file and no database of the repository has the service's name. */
  ghost predicate FreshService(repo: Repository, p: Parameters) {
    (forall path <- repo :: !Own(p, path)) && (Loads(repo) ==> !AnyDatabase(TenantsOf(repo), p.name))
  }

  // ---------------------------------------------------------------- scaffold

  lemma SortOne<T>(x: T, key: T -> string)
    ensures SortBy([] + [x], key) == [x]
  {
    assert [] + [x] == [x] && [x][1..] == [];
  }

  /** The parameters of a scaffold with its own team. */
  predicate OwnScaffold(q: Request) {
    q.operation.ServiceScaffold? && q.p.createTeam && q.p.team == q.p.name && !q.p.template.NoTemplate?
  }

  lemma ScaffoldPlanIs(tenants: seq<Tenant>, q: Request) returns (i: nat)
    requires OwnScaffold(q) && UniqueNames(AllNames(tenants)) && AllWrites(PlanServiceScaffold(tenants, q).actions)
    ensures var p, plan, team := q.p, PlanServiceScaffold(tenants, q), NewTenant(q.p.team, ServiceTeam(q.p).owners);
            && Beside(tenants, plan.tenants, i) && plan.tenants[i] == WithService(team, p)
            && plan.actions == [WriteLeaf(TeamLeaf(p.team), TeamFile(p.team, ServiceTeam(p)))] + ScaffoldActions(p)
  {
    hide UniqueNames, AllNames, Index, AnyService, SortBy, DatabaseActive, ScaffoldActions, WithService, TeamFile;
    var p := q.p;
    RefusalFails(tenants, Conflict);
    RefusalFails(tenants, NotFound);
    var team := NewTenant(p.team, ServiceTeam(p).owners);
    var longer := SortBy(tenants + [team], TenantName);
    i := NewTeamAt(tenants, team);
    NoDatabases(team, p.name);
    NewBeside(tenants, longer, i, team, WithService(team, p));
  }

  lemma NewBeside(tenants: seq<Tenant>, longer: seq<Tenant>, i: nat, team: Tenant, t: Tenant)
    requires i < |longer| && longer[i] == team && multiset(longer) == multiset(tenants + [team])
    ensures Beside(tenants, longer[i := t], i)
  {
    var rest := longer[..i] + longer[i + 1..];
    assert longer == longer[..i] + [team] + longer[i + 1..];
    assert multiset(longer) == multiset(rest) + multiset{team};
    assert multiset(rest) == multiset(longer) - multiset{team};
    assert multiset(tenants) == multiset(tenants + [team]) - multiset{team};
    var after := longer[i := t];
    assert after[..i] == longer[..i] && after[i + 1..] == longer[i + 1..];
  }

  lemma ScaffoldPlan(tenants: seq<Tenant>, q: Request) returns (i: nat)
    requires OwnScaffold(q) && UniqueNames(AllNames(tenants)) && AllWrites(PlanServiceScaffold(tenants, q).actions) && q.p.name != ""
    ensures var p, plan := q.p, PlanServiceScaffold(tenants, q);
            && Beside(tenants, plan.tenants, i) && NewTeam(plan.tenants[i], p)
            && (forall a <- plan.actions :: a.WriteLeaf? || a == WriteSource(NewService(p)))
            && (forall a <- plan.actions :: a.WriteLeaf? ==> a.leaf == TeamLeaf(p.name) || (p.withDatabase && a.leaf == DatabaseLeaf(p.name)))
  {
    hide UniqueNames, AllNames, PlanServiceScaffold, ScaffoldActions, WithService, TeamFile, NewTeam, Beside, SortBy, NewService;
    i := ScaffoldPlanIs(tenants, q);
    ScaffoldActionsAre(q.p);
    NewTeamIsNew(NewTenant(q.p.team, ServiceTeam(q.p).owners), q.p);
  }

  lemma NewTeamIsNew(team: Tenant, p: Parameters)
    requires team.name == p.name && team.services == [] && team.databases == [] && p.createTeam && p.name != ""
    ensures NewTeam(WithService(team, p), p)
  {
    hide SortBy, TemplateComponents;
    SortOne(NewService(p), ServiceName);
    SortOne(NewEntry(DatabaseLeaf(p.name), ""), EntryName);
  }

  lemma ScaffoldHosts(before: Repository, q: Request, next: Repository) returns (i: nat)
    requires Healthy(before) && Step(before, q, next) && OwnScaffold(q) && FreshService(before, q.p)
    ensures Hosts(before, next, q.p, i)
  {
    hide Execute, Consistent, RequestOk, PlanServiceScaffold, FilesAfter, GapFree, Rendered, View, UniqueNames, AllNames, TenantOk, NewTeam, AnyDatabase,
         Own, NewService, OwnAction;
    var p, tenants := q.p, TenantsOf(before);
    var plan := PlanOf(before, tenants, q);
    StepIsPlan(before, q, next);
    StepIsHealthy(before, q, next);
    SucceededWrites(before, plan.actions);
    NameIsGiven(q);
    i := ScaffoldPlan(tenants, q);
    forall a <- plan.actions ensures OwnAction(p, a) {
      ScaffoldActionIsOwn(p, a);
    }
    forall path | path != CatalogPath && !Own(p, path) ensures (path in next <==> path in before) && (path in before ==> next[path] == before[path]) {
      OthersUntouched(before, plan, p, path);
    }
    forall path <- next | Own(p, path) ensures ScaffoldedPath(p, path) {
      OwnIsNotCatalog(p, path);
      CreatedBy(before, plan, path);
      var a :| a in plan.actions && About(a, path) && (a.WriteLeaf? || a.WriteSource? || a.WriteVersion?);
      ScaffoldWrites(p, a, path);
    }
    ScaffoldedIsOwned(next, TenantsOf(next)[i], p);
  }

  lemma NameIsGiven(q: Request)
    requires RequestOk(q)
    ensures q.p.name != ""
  {
  }

  lemma OwnIsNotCatalog(p: Parameters, path: Path)
    requires Own(p, path)
    ensures path != CatalogPath
  {
  }

  predicate ScaffoldedPath(p: Parameters, path: Path) {
    path.Source? || ((path.Manifest? || path.Kustomization?) && (path.leaf.TeamLeaf? || (path.leaf.DatabaseLeaf? && p.withDatabase)))
  }

  lemma ScaffoldedIsOwned(repo: Repository, t: Tenant, p: Parameters)
    requires forall path <- repo :: Own(p, path) ==> ScaffoldedPath(p, path)
    ensures Owned(repo, t, p)
  {
    hide Own;
  }

  lemma ScaffoldActionIsOwn(p: Parameters, a: Action)
    requires a == WriteSource(NewService(p)) || (a.WriteLeaf? && (a.leaf == TeamLeaf(p.name) || (p.withDatabase && a.leaf == DatabaseLeaf(p.name))))
    ensures OwnAction(p, a)
  {
    hide TemplateComponents;
  }

  lemma ScaffoldWrites(p: Parameters, a: Action, path: Path)
    requires a == WriteSource(NewService(p)) || (a.WriteLeaf? && (a.leaf == TeamLeaf(p.name) || (p.withDatabase && a.leaf == DatabaseLeaf(p.name))))
    requires About(a, path)
    ensures ScaffoldedPath(p, path)
  {
    hide TemplateComponents;
  }

  // ---------------------------------------------------------------- the hosted team

  lemma HostedIndex(repo: Repository, p: Parameters, i: nat)
    requires Healthy(repo) && i < |TenantsOf(repo)| && NewTeam(TenantsOf(repo)[i], p)
    ensures Index(TenantsOf(repo), TenantName, p.name) == i && Index(TenantsOf(repo)[i].services, ServiceName, p.name) == 0
    ensures Separate(TenantsOf(repo)) && Derived(TenantsOf(repo)) && UniqueNames(AllNames(TenantsOf(repo)))
  {
    hide Index, UniqueNames, AllNames, Shape, Consistent, TenantOk, Valid, Derived, HasEntry;
    var tenants := TenantsOf(repo);
    ValidHasShape(repo.Keys, tenants);
    UniqueIsSeparate(tenants);
    forall a, b | 0 <= a < b < |tenants| ensures TenantName(tenants[a]) != TenantName(tenants[b]) {
      TwoTeams(tenants, a, b);
    }
    assert TenantName(tenants[i]) == p.name;
    OnlyMatch(tenants, TenantName, i);
    assert ServiceName(tenants[i].services[0]) == p.name;
    OnlyMatch(tenants[i].services, ServiceName, 0);
  }

  lemma TwoTeams(tenants: seq<Tenant>, a: nat, b: nat)
    requires Separate(tenants) && a < b < |tenants|
    ensures tenants[a].name != tenants[b].name
  {
    hide DistinctBy, TenantHasService;
    assert TenantHas(tenants[a], TeamLeaf(tenants[a].name)) && TenantHas(tenants[b], TeamLeaf(tenants[b].name));
  }

  lemma StillBeside(before: seq<Tenant>, tenants: seq<Tenant>, i: nat, t: Tenant)
    requires Beside(before, tenants, i)
    ensures Beside(before, tenants[i := t], i)
  {
    assert tenants[i := t][..i] == tenants[..i] && tenants[i := t][i + 1..] == tenants[i + 1..];
  }

  lemma HostedPlan(repo: Repository, p: Parameters, i: nat, q: Request, next: Repository)
    requires Healthy(repo) && i < |TenantsOf(repo)| && NewTeam(TenantsOf(repo)[i], p) && Step(repo, q, next)
    requires Target(q) == p.name && !q.operation.TeamCreate? && !q.operation.ServiceScaffold?
    ensures PlanOf(repo, TenantsOf(repo), q) == PlanIn(repo, TenantsOf(repo), i, q) && AllWrites(PlanIn(repo, TenantsOf(repo), i, q).actions)
    ensures Execute(repo, PlanIn(repo, TenantsOf(repo), i, q).actions).Ok? && next == FilesAfter(repo, PlanIn(repo, TenantsOf(repo), i, q))
    ensures Healthy(next) && TenantsOf(next) == PlanIn(repo, TenantsOf(repo), i, q).tenants
  {
    hide Execute, Consistent, RequestOk, PlanIn, FilesAfter, GapFree, Rendered, View, UniqueNames, AllNames, TenantOk, NewTeam, Index, Valid;
    HostedIndex(repo, p, i);
    StepIsPlan(repo, q, next);
    StepIsHealthy(repo, q, next);
    Refusals(repo, TenantsOf(repo), Conflict, q);
    SucceededWrites(repo, PlanIn(repo, TenantsOf(repo), i, q).actions);
  }

  /** An operation on the service's own files that lists what it creates keeps hosting it. */
  lemma KeepsHosting(before: Repository, repo: Repository, p: Parameters, i: nat, q: Request, next: Repository, plan: Plan, t: Tenant)
    requires Hosts(before, repo, p, i) && Healthy(next) && TenantsOf(next) == plan.tenants && plan.tenants == TenantsOf(repo)[i := t]
    requires Execute(repo, plan.actions).Ok? && next == FilesAfter(repo, plan) && NewTeam(t, p)
    requires forall a <- plan.actions :: OwnAction(p, a) && !a.WriteSource? && (a.WriteLeaf? ==> a.leaf.AppLeaf? && HasEntry(t.applications, a.leaf.name))
    requires forall name :: HasEntry(TenantsOf(repo)[i].applications, name) ==> HasEntry(t.applications, name)
    ensures Hosts(before, next, p, i)
  {
    hide Execute, Consistent, FilesAfter, UniqueNames, AllNames, TenantOk, NewTeam, Own, OwnAction, HasEntry, Valid;
    StillBeside(TenantsOf(before), TenantsOf(repo), i, t);
    forall path | path != CatalogPath && !Own(p, path) ensures (path in next <==> path in before) && (path in before ==> next[path] == before[path]) {
      OthersUntouched(repo, plan, p, path);
    }
    forall path <- next | Own(p, path) ensures OwnedPath(t, p, path) {
      OwnIsNotCatalog(p, path);
      if path in repo {
        OwnedMeans(repo, TenantsOf(repo)[i], p, path);
      } else {
        CreatedBy(repo, plan, path);
        var a :| a in plan.actions && About(a, path) && (a.WriteLeaf? || a.WriteSource? || a.WriteVersion?);
        WrittenIsOwned(t, p, a, path);
      }
    }
    OwnedPaths(next, t, p);
  }

  predicate OwnedPath(t: Tenant, p: Parameters, path: Path) {
    path.Source? || ((path.Manifest? || path.Kustomization?)
                     && (path.leaf.TeamLeaf? || (path.leaf.DatabaseLeaf? && p.withDatabase) || (path.leaf.AppLeaf? && HasEntry(t.applications, path.leaf.name))))
  }

  lemma OwnedMeans(repo: Repository, t: Tenant, p: Parameters, path: Path)
    requires Owned(repo, t, p) && path in repo && Own(p, path)
    ensures OwnedPath(t, p, path)
  {
    hide HasEntry, OwnLeafOf;
  }

  lemma OwnedPaths(repo: Repository, t: Tenant, p: Parameters)
    requires forall path <- repo :: Own(p, path) ==> OwnedPath(t, p, path)
    ensures Owned(repo, t, p)
  {
    hide HasEntry, OwnLeafOf;
  }

  lemma WrittenIsOwned(t: Tenant, p: Parameters, a: Action, path: Path)
    requires About(a, path) && !a.WriteSource? && (a.WriteLeaf? ==> a.leaf.AppLeaf? && HasEntry(t.applications, a.leaf.name)) && (a.WriteLeaf? || a.WriteVersion?)
    ensures OwnedPath(t, p, path)
  {
    hide HasEntry;
  }

  // ---------------------------------------------------------------- activate and retire

  lemma ActivateHosts(before: Repository, repo: Repository, p: Parameters, i: nat, q: Request, next: Repository)
    requires Hosts(before, repo, p, i) && Step(repo, q, next) && q.operation.ServiceActivate? && q.p.team == q.p.name == p.name
    ensures Hosts(before, next, p, i)
  {
    hide Execute, Consistent, FilesAfter, UniqueNames, AllNames, TenantOk, NewTeam, Own, OwnAction, HasEntry, Valid, Owned, Step, Index, SortBy, WithComponents,
         ComponentActions, Separate, Beside;
    var tenants := TenantsOf(repo);
    HostedIndex(repo, p, i);
    HostedPlan(repo, p, i, q, next);
    var t, plan := tenants[i], PlanIn(repo, tenants, i, q);
    RefusalFails(tenants, Conflict);
    NewTeamHasService(t, p);
    var s := t.services[0].(version := q.p.version);
    var active := s.(lifecycle := Active);
    var after, writes := WithComponents(t.applications, s, s.components), ComponentActions(q.p.team, t.applications, s, s.components);
    var changed := t.(applications := SortBy(after, EntryName), services := t.services[0 := active]);
    assert plan == Plan(tenants[i := changed], writes + [WriteVersion(active)]);
    assert forall a <- writes :: a in plan.actions;
    SeparateTenant(tenants, i);
    ComponentsActivate(t.applications, q.p.team, s, s.components);
    ActivationIsOwn(t, after, writes, q.p.team, s, p, active);
    KeepsHosting(before, repo, p, i, q, next, plan, changed);
  }

  lemma NewTeamHasService(t: Tenant, p: Parameters)
    requires NewTeam(t, p)
    ensures t.name == p.name && |t.services| == 1 && NewServiceOf(t.services[0], p)
  {
    hide HasEntry;
  }

  lemma ActivationIsOwn(t: Tenant, after: seq<Entry>, writes: seq<Action>, team: string, s: Service, p: Parameters, active: Service)
    requires NewTeam(t, p) && NewServiceOf(s, p) && NewServiceOf(active, p) && Activated(t.applications, after, writes, team, s, s.components)
    ensures var changed := t.(applications := SortBy(after, EntryName), services := t.services[0 := active]);
            && NewTeam(changed, p)
            && (forall a <- writes + [WriteVersion(active)] ::
                  OwnAction(p, a) && !a.WriteSource? && (a.WriteLeaf? ==> a.leaf.AppLeaf? && HasEntry(changed.applications, a.leaf.name)))
            && forall name :: HasEntry(t.applications, name) ==> HasEntry(changed.applications, name)
  {
    hide SortBy, ComponentFile, TemplateComponents, HasEntry;
    var changed := t.(applications := SortBy(after, EntryName), services := t.services[0 := active]);
    forall name | HasEntry(after, name) ensures HasEntry(changed.applications, name) {
      SortedHas(after, name);
    }
    forall name | HasEntry(t.applications, name) ensures HasEntry(after, name) {
      EntryStays(t.applications, after, writes, team, s, name);
    }
  }

  lemma EntryStays(before: seq<Entry>, after: seq<Entry>, writes: seq<Action>, team: string, s: Service, name: string)
    requires Activated(before, after, writes, team, s, s.components) && HasEntry(before, name)
    ensures HasEntry(after, name)
  {
    hide ComponentFile;
    var e :| e in before && e.name == name;
    if name !in s.components {
      assert e in after;
    }
  }

  lemma RetireHosts(before: Repository, repo: Repository, p: Parameters, i: nat, q: Request, next: Repository)
    requires Hosts(before, repo, p, i) && Step(repo, q, next) && q.operation.ServiceRetire? && q.p.team == q.p.name == p.name
    ensures Hosts(before, next, p, i)
  {
    hide Execute, Consistent, FilesAfter, UniqueNames, AllNames, TenantOk, NewTeam, Own, OwnAction, HasEntry, Valid, Owned, Step, Index, RetireService,
         ApproveNamed, OwnedDatabase, Separate, Beside;
    var tenants := TenantsOf(repo);
    HostedIndex(repo, p, i);
    HostedPlan(repo, p, i, q, next);
    var t, plan := tenants[i], PlanIn(repo, tenants, i, q);
    RefusalFails(tenants, Conflict);
    NewTeamHasService(t, p);
    assert plan.tenants == tenants[i := RetireService(t, 0, q.id)];
    SeparateTenant(tenants, i);
    RetirementActions(tenants, i, 0, q);
    RetirementIsOwn(t, p, q, plan.actions);
    KeepsHosting(before, repo, p, i, q, next, plan, RetireService(t, 0, q.id));
  }

  lemma RetirementIsOwn(t: Tenant, p: Parameters, q: Request, actions: seq<Action>)
    requires NewTeam(t, p) && DistinctBy(t.applications, EntryName)
    requires var s, k := t.services[0], OwnedDatabase(t, t.services[0]);
             && (forall a <- actions :: a.Approve? && TenantHas(t, a.leaf))
             && (forall a <- actions :: a.leaf.AppLeaf? ==> a.leaf.name in s.components)
             && (forall a <- actions :: a.leaf.DatabaseLeaf? ==> k >= 0 && a.leaf.name == t.databases[k].name)
    ensures NewTeam(RetireService(t, 0, q.id), p) && (forall a <- actions :: OwnAction(p, a))
    ensures forall name :: HasEntry(t.applications, name) ==> HasEntry(RetireService(t, 0, q.id).applications, name)
  {
    hide RetireNamed, NamedRetired, DistinctBy, HasEntry, TemplateComponents, Index;
    var r, s := RetireService(t, 0, q.id), t.services[0];
    OwnedIsReferenced(t, s);
    NamesRetire(t.applications, s.components, q.id);
    NamedRetiredNames(t.applications, r.applications, s.components, q.id);
    forall name | HasEntry(t.applications, name) ensures HasEntry(r.applications, name) {
      NameStays(t.applications, r.applications, name);
    }
    forall name | HasEntry(t.databases, name) ensures HasEntry(r.databases, name) {
      NameStays(t.databases, r.databases, name);
    }
  }

  // ---------------------------------------------------------------- finalize

  /** The same files, but for the catalog, and the same tenants, but for their order. */
  ghost predicate Restored(before: Repository, after: Repository) {
    && Loads(before) && Loads(after) && multiset(TenantsOf(after)) == multiset(TenantsOf(before))
    && forall path :: path != CatalogPath ==> (path in after <==> path in before) && (path in before ==> after[path] == before[path])
  }

  lemma FinalizeRestores(before: Repository, repo: Repository, p: Parameters, i: nat, q: Request, next: Repository)
    requires Hosts(before, repo, p, i) && Step(repo, q, next) && q.operation.ServiceFinalize? && q.p.team == q.p.name == p.name
    requires forall path <- before :: !Own(p, path)
    ensures Restored(before, next)
  {
    hide Execute, Consistent, FilesAfter, UniqueNames, AllNames, TenantOk, NewTeam, Own, OwnAction, HasEntry, Valid, Owned, Step, Index, DropNamed,
         OwnedDatabase, Separate, Derived, Without, TenantHas;
    var tenants := TenantsOf(repo);
    HostedIndex(repo, p, i);
    HostedPlan(repo, p, i, q, next);
    var t, plan := tenants[i], PlanIn(repo, tenants, i, q);
    RefusalFails(tenants, Conflict);
    RefusalFails(tenants, NotFound);
    NewTeamHasService(t, p);
    FinalizationActions(repo, tenants, i, 0, q);
    assert Unanimous(plan.actions);
    assert plan.tenants == Without(tenants, TenantName, [t.name]);
    OthersRemain(tenants, i);
    FinalizationIsOwn(t, p, plan.actions);
    forall path | path != CatalogPath ensures (path in next <==> path in before) && (path in before ==> next[path] == before[path]) {
      if Own(p, path) {
        OwnPathGoes(repo, plan, t, p, path);
      } else {
        OthersUntouched(repo, plan, p, path);
      }
    }
  }

  lemma OthersRemain(tenants: seq<Tenant>, i: nat)
    requires Separate(tenants) && i < |tenants|
    ensures multiset(Without(tenants, TenantName, [tenants[i].name])) == multiset(tenants[..i] + tenants[i + 1..])
  {
    hide Separate;
    var name := tenants[i].name;
    forall k | 0 <= k < |tenants| && k != i ensures tenants[k].name != name {
      TwoTeams(tenants, if k < i then k else i, if k < i then i else k);
    }
    assert tenants == tenants[..i] + ([tenants[i]] + tenants[i + 1..]);
    WithoutParts(tenants[..i], [tenants[i]] + tenants[i + 1..], name);
    WithoutParts([tenants[i]], tenants[i + 1..], name);
    WithoutNone(tenants[..i], name);
    WithoutNone(tenants[i + 1..], name);
    assert Without([tenants[i]], TenantName, [name]) == [];
  }

  lemma {:induction false} WithoutParts(a: seq<Tenant>, b: seq<Tenant>, name: string)
    ensures Without(a + b, TenantName, [name]) == Without(a, TenantName, [name]) + Without(b, TenantName, [name])
  {
    if a == [] {
      assert a + b == b;
    } else {
      assert (a + b)[1..] == a[1..] + b;
      WithoutParts(a[1..], b, name);
    }
  }

  lemma {:induction false} WithoutNone(tenants: seq<Tenant>, name: string)
    requires forall k :: 0 <= k < |tenants| ==> tenants[k].name != name
    ensures Without(tenants, TenantName, [name]) == tenants
  {
    if tenants != [] {
      WithoutNone(tenants[1..], name);
      assert TenantName(tenants[0]) !in [name];
    }
  }

  lemma FinalizationIsOwn(t: Tenant, p: Parameters, actions: seq<Action>)
    requires NewTeam(t, p)
    requires var s, k := t.services[0], OwnedDatabase(t, t.services[0]);
             && (forall a <- actions :: (a.DropLeaf? && TenantHas(t, a.leaf)) || a == DropSource(s))
             && (forall a <- actions :: a.DropLeaf? && a.leaf.AppLeaf? ==> a.leaf.name in s.components)
             && (forall a <- actions :: a.DropLeaf? && a.leaf.DatabaseLeaf? ==> k >= 0 && a.leaf.name == t.databases[k].name)
    ensures forall a <- actions :: OwnAction(p, a)
  {
    hide TemplateComponents, Index, HasEntry;
    OwnedIsReferenced(t, t.services[0]);
  }

  /** Everything the service owns goes with it. */
  lemma OwnPathGoes(repo: Repository, plan: Plan, t: Tenant, p: Parameters, path: Path)
    requires NewTeam(t, p) && Owned(repo, t, p) && Own(p, path) && Execute(repo, plan.actions).Ok? && Unanimous(plan.actions)
    requires var s, k := t.services[0], OwnedDatabase(t, t.services[0]);
             && (forall a <- plan.actions :: a.DropLeaf? || a == DropSource(s))
             && (forall e <- t.applications :: e.name in s.components ==> DropLeaf(AppLeaf(e.name)) in plan.actions)
             && (k >= 0 ==> DropLeaf(DatabaseLeaf(t.databases[k].name)) in plan.actions) && DropSource(s) in plan.actions
             && DropLeaf(TeamLeaf(t.name)) in plan.actions
    ensures path !in FilesAfter(repo, plan)
  {
    hide Execute, FilesAfter, Unanimous, Index, TemplateComponents;
    var s := t.services[0];
    OwnIsNotCatalog(p, path);
    if path !in repo {
      if path in FilesAfter(repo, plan) {
        CreatedBy(repo, plan, path);
      }
    } else {
      OwnedMeans(repo, t, p, path);
      if path.Source? {
        DroppedSource(repo, plan, s, path);
      } else if path.leaf.TeamLeaf? {
        DroppedLeaf(repo, plan, TeamLeaf(t.name));
      } else if path.leaf.DatabaseLeaf? {
        OwnedFound(t, p);
        DroppedLeaf(repo, plan, DatabaseLeaf(p.name));
      } else {
        var e :| e in t.applications && e.name == path.leaf.name;
        DroppedLeaf(repo, plan, AppLeaf(e.name));
      }
    }
  }

  lemma OwnedFound(t: Tenant, p: Parameters)
    requires NewTeam(t, p) && p.withDatabase
    ensures OwnedDatabase(t, t.services[0]) >= 0 && t.databases[OwnedDatabase(t, t.services[0])].name == p.name
  {
    hide Index, TemplateComponents;
    FoundBy(t.databases, EntryName, p.name);
    var e :| e in t.databases && e.name == p.name;
    var k :| 0 <= k < |t.databases| && t.databases[k] == e;
    assert EntryName(t.databases[k]) == p.name;
  }

  // ---------------------------------------------------------------- the round trip

  /** Scaffold with an own team, activate or not, retire, finalize under the retirement:
      every file and every tenant is as it was, up to the order of the tenants. */
  lemma ServiceRoundTrip(r0: Repository, scaffold: Request, r1: Repository, activate: Option<Request>, r2: Repository,
                         retire: Request, r3: Repository, finalize: Request, r4: Repository)
    requires Healthy(r0) && FreshService(r0, scaffold.p) && OwnScaffold(scaffold) && Step(r0, scaffold, r1)
    requires match activate
             case None => r2 == r1
             case Some(q) => q.operation.ServiceActivate? && q.p.team == q.p.name == scaffold.p.name && Step(r1, q, r2)
    requires retire.operation.ServiceRetire? && retire.p.team == retire.p.name == scaffold.p.name && Step(r2, retire, r3)
    requires finalize.operation.ServiceFinalize? && finalize.p.team == finalize.p.name == scaffold.p.name && Step(r3, finalize, r4)
    ensures Restored(r0, r4)
  {
    hide Healthy, Hosts, Step, Restored, OwnScaffold, Own;
    var i := ScaffoldHosts(r0, scaffold, r1);
    if activate.Some? {
      ActivateHosts(r0, r1, scaffold.p, i, activate.value, r2);
    }
    RetireHosts(r0, r2, scaffold.p, i, retire, r3);
    FinalizeRestores(r0, r3, scaffold.p, i, finalize, r4);
  }
}
