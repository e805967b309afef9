/** The life of a service goes through: from a healthy repository in which its name is
    unused, well-formed requests to scaffold it with its team, perhaps activate it,
    retire it and finalize it are all carried out. */
module ServiceLifecycle {
  import opened Wrappers
  import opened Catalog
  import opened CatalogFacts
  import opened ChangePlan
  import opened ChangeSets
  import opened OverlayFacts
  import opened RenderSafety
  import opened RenderAccounting
  import opened ServiceAccounting
  import opened CatalogPreserved
  import opened OperationSoundness
  import opened RenderRuns
  import opened ScaffoldRoundTrip

  // ---------------------------------------------------------------- when a plan goes through

  predicate Clear(repo: Repository, actions: seq<Action>) { forall a <- actions :: Blocked(repo, a).None? }

  lemma {:induction false} ClearExecutes(repo: Repository, actions: seq<Action>)
    requires Clear(repo, actions)
    ensures Execute(repo, actions).Ok?
    decreases |actions|
  {
    hide Blocked, ChangePlan.Effect;
    if actions != [] {
      assert actions[|actions| - 1] in actions;
      ClearExecutes(repo, actions[..|actions| - 1]);
    }
  }

  lemma ClearWrites(repo: Repository, actions: seq<Action>)
    requires Clear(repo, actions)
    ensures AllWrites(actions)
  {
    hide ValidName, LeafExists, OnlyGenerated, AllAllowed, ExactSource, GoldenReadable;
  }

  /** A clear plan that changes the catalog is a step. */
  lemma ClearStep(repo: Repository, q: Request) returns (next: Repository)
    requires Healthy(repo) && RequestOk(q) && GapFree(TenantsOf(repo), q)
    requires var plan := PlanOf(repo, TenantsOf(repo), q); Clear(repo, plan.actions) && plan.tenants != TenantsOf(repo)
    ensures Step(repo, q, next)
  {
    hide Execute, RequestOk, PlanOf, GapFree, Clear, Consistent, Valid;
    var plan := PlanOf(repo, TenantsOf(repo), q);
    ClearExecutes(repo, plan.actions);
    var changes := Execute(repo, plan.actions).value + SetChange(repo, CatalogPath, CatalogFile(plan.tenants));
    assert CatalogPath in changes;
    assert Rendered(repo, q) == Ok(changes);
    next := View(repo, Rendered(repo, q).value);
  }

  // ---------------------------------------------------------------- what becomes of a path

  /** Some action that could be taken decided the path. */
  lemma {:induction false} DecidedBy(repo: Repository, actions: seq<Action>, p: Path) returns (a: Action)
    requires Execute(repo, actions).Ok? && p in Execute(repo, actions).value
    ensures a in actions && Blocked(repo, a).None? && p in ChangePlan.Effect(repo, a)
    ensures ChangePlan.Effect(repo, a)[p] == Execute(repo, actions).value[p]
    decreases |actions|
  {
    hide Blocked, ChangePlan.Effect;
    var init, last := actions[..|actions| - 1], actions[|actions| - 1];
    if p in ChangePlan.Effect(repo, last) {
      a := last;
      assert last in actions;
    } else {
      a := DecidedBy(repo, init, p);
    }
  }

  lemma OnlyDropsRemove(repo: Repository, a: Action, p: Path)
    requires Blocked(repo, a).None? && p in ChangePlan.Effect(repo, a) && ChangePlan.Effect(repo, a)[p].content.None?
    ensures a.DropLeaf? || a.DropSource?
  {
    hide SourceFiles, ValidName, LeafExists, OnlyGenerated, GoldenReadable, AllAllowed, ExactSource, SourceContent;
    if a.WriteSource? {
      SetFilesAt(repo, a.service, SourceFiles(a.service.template), p);
    } else if a.WriteVersion? {
      SetFilesAt(repo, a.service, [VersionFile, Descriptor], p);
    }
  }

  predicate NoDrops(actions: seq<Action>) { forall a <- actions :: !a.DropLeaf? && !a.DropSource? }

  lemma Survives(repo: Repository, plan: Plan, p: Path)
    requires Execute(repo, plan.actions).Ok? && NoDrops(plan.actions) && p in repo && p != CatalogPath
    ensures p in FilesAfter(repo, plan)
  {
    hide Execute, FilesAfter, Blocked, ChangePlan.Effect;
    PathAfter(repo, plan, p);
    if p in Execute(repo, plan.actions).value && Execute(repo, plan.actions).value[p].content.None? {
      var a := DecidedBy(repo, plan.actions, p);
      OnlyDropsRemove(repo, a, p);
    }
  }

  lemma KustomizationWritten(repo: Repository, plan: Plan, leaf: Leaf, file: File)
    requires Execute(repo, plan.actions).Ok? && Unanimous(plan.actions) && WriteLeaf(leaf, file) in plan.actions
    ensures Kustomization(leaf) in FilesAfter(repo, plan) && FilesAfter(repo, plan)[Kustomization(leaf)] == KustomizationFile(leaf)
  {
    hide Execute, FilesAfter, Unanimous, ValidName;
    OnlyAction(plan.actions, WriteLeaf(leaf, file), Kustomization(leaf));
    OneDecides(repo, plan.actions, WriteLeaf(leaf, file), Kustomization(leaf));
    PathAfter(repo, plan, Kustomization(leaf));
  }

  /** Every file of a written source is there afterwards. */
  lemma SourceWritten(repo: Repository, plan: Plan, s: Service, f: SourceFile)
    requires Execute(repo, plan.actions).Ok? && Unanimous(plan.actions) && WriteSource(s) in plan.actions && f in SourceFiles(s.template)
    ensures Source(s.path, f) in FilesAfter(repo, plan) && FilesAfter(repo, plan)[Source(s.path, f)] == SourceContent(repo, s, f)
  {
    hide Execute, FilesAfter, Unanimous, SourceFiles, AllAllowed, GoldenReadable, SourceContent;
    var p := Source(s.path, f);
    OnlyAction(plan.actions, WriteSource(s), p);
    OneDecides(repo, plan.actions, WriteSource(s), p);
    PathAfter(repo, plan, p);
    SetFilesAt(repo, s, SourceFiles(s.template), p);
  }

  lemma VersionWritten(repo: Repository, plan: Plan, s: Service, f: SourceFile)
    requires Execute(repo, plan.actions).Ok? && Unanimous(plan.actions) && WriteVersion(s) in plan.actions && (f == VersionFile || f == Descriptor)
    ensures Source(s.path, f) in FilesAfter(repo, plan) && FilesAfter(repo, plan)[Source(s.path, f)] == SourceContent(repo, s, f)
  {
    hide Execute, FilesAfter, Unanimous, AllAllowed, SourceContent;
    var p := Source(s.path, f);
    OnlyAction(plan.actions, WriteVersion(s), p);
    OneDecides(repo, plan.actions, WriteVersion(s), p);
    PathAfter(repo, plan, p);
    SetFilesAt(repo, s, [VersionFile, Descriptor], p);
  }

  /** A new source file belongs to a template that was written, or to a version. */
  lemma SourceCreated(repo: Repository, plan: Plan, p: Path) returns (a: Action)
    requires Execute(repo, plan.actions).Ok? && p.Source? && p !in repo && p in FilesAfter(repo, plan)
    ensures a in plan.actions && (a.WriteSource? || a.WriteVersion?) && a.service.path == p.service
    ensures p.file in if a.WriteSource? then SourceFiles(a.service.template) else [VersionFile, Descriptor]
  {
    hide Execute, FilesAfter, SourceFiles, AllAllowed, GoldenReadable, SourceContent, ValidName, LeafExists, OnlyGenerated;
    PathAfter(repo, plan, p);
    a := DecidedBy(repo, plan.actions, p);
    EffectIsAbout(repo, a, p);
    if a.WriteSource? {
      SetFilesAt(repo, a.service, SourceFiles(a.service.template), p);
    } else if a.WriteVersion? {
      SetFilesAt(repo, a.service, [VersionFile, Descriptor], p);
    } else {
      RemoveFilesAt(repo, a.service.path, SourceFiles(a.service.template), p);
    }
  }

  // ---------------------------------------------------------------- stages of a service's life

  predicate OnlyOwn(t: Tenant, p: Parameters) {
    (forall a <- t.applications :: a.name in TemplateComponents(p.name, p.template)) && (forall d <- t.databases :: p.withDatabase && d.name == p.name)
  }

  /** Everything the service lists has its generated files, and its source is complete. */
  ghost predicate Furnished(repo: Repository, t: Tenant, p: Parameters) {
    && OnlyOwn(t, p) && (forall leaf :: TenantHas(t, leaf) ==> Kustomization(leaf) in repo)
    && ExactSource(repo, p.name, SourceFiles(p.template))
  }

  ghost predicate Stage(before: Repository, repo: Repository, p: Parameters, i: nat) {
    && Hosts(before, repo, p, i) && GoldenReadable(before, p.template) && ValidName(p.name, 48) && (forall path <- before :: !Own(p, path))
    && Furnished(repo, TenantsOf(repo)[i], p)
  }

  predicate Serving(t: Tenant) {
    t.lifecycle.Active? && (forall s <- t.services :: !s.lifecycle.Retiring?) && forall a <- t.applications :: a.lifecycle.Active?
  }

  predicate Leaving(t: Tenant, id: string) {
    && t.lifecycle.Retiring? && t.request == id && (forall s <- t.services :: s.lifecycle.Retiring? && s.request == id)
    && (forall a <- t.applications :: a.lifecycle.Retiring? && a.request == id) && (forall d <- t.databases :: d.lifecycle.Retiring? && d.request == id)
  }

  // ---------------------------------------------------------------- scaffold

  lemma ListedHasFiles(repo: Repository, p: Parameters)
    requires Loads(repo) && (AnyService(TenantsOf(repo), p.name) || Index(TenantsOf(repo), TenantName, p.name) >= 0)
    ensures exists path <- repo :: Own(p, path)
  {
    hide UniqueNames, AllNames, Index, DatabaseOk, ApplicationOk, ValidName, OwnersOk, LifecycleOk, ServiceLifecycleOk, TemplateComponents;
    var tenants := TenantsOf(repo);
    if AnyService(tenants, p.name) {
      var t :| t in tenants && exists s <- t.services :: s.name == p.name;
      var s :| s in t.services && s.name == p.name;
      assert ServiceOk(repo.Keys, t.databases, s);
      var path :| path in repo && path.Source? && path.service == s.path;
      assert Own(p, path);
    } else {
      var i := Index(tenants, TenantName, p.name);
      assert TeamOk(repo.Keys, tenants[i]) && TenantName(tenants[i]) == p.name;
      var path :| path in repo && InLeaf(path, TeamLeaf(p.name));
      assert Own(p, path);
    }
  }

  /** With no file of its own, a service is in no catalog either. */
  lemma FreshIsUnused(repo: Repository, p: Parameters)
    requires Loads(repo) && forall path <- repo :: !Own(p, path)
    ensures !AnyService(TenantsOf(repo), p.name) && Index(TenantsOf(repo), TenantName, p.name) < 0
  {
    hide Loads, AnyService, Index, Own;
    if AnyService(TenantsOf(repo), p.name) || Index(TenantsOf(repo), TenantName, p.name) >= 0 {
      ListedHasFiles(repo, p);
    }
  }

  lemma OwnPathsAllowed(p: Parameters)
    requires ValidName(p.name, 48)
    ensures Allowed(Manifest(TeamLeaf(p.name))) && Allowed(Manifest(DatabaseLeaf(p.name))) && AllAllowed(p.name, SourceFiles(p.template))
    ensures AllAllowed(p.name, [VersionFile, Descriptor]) && forall c <- TemplateComponents(p.name, p.template) :: Allowed(Manifest(AppLeaf(c)))
  {
    hide ValidName;
    ApiNameIsValid(p.name);
  }

  lemma ScaffoldIsClear(repo: Repository, q: Request)
    requires Healthy(repo) && RequestOk(q) && OwnScaffold(q) && FreshService(repo, q.p) && GoldenReadable(repo, q.p.template)
    ensures var plan := PlanOf(repo, TenantsOf(repo), q); Clear(repo, plan.actions) && plan.tenants != TenantsOf(repo)
    ensures GapFree(TenantsOf(repo), q)
  {
    hide Consistent, UniqueNames, AllNames, TenantOk, Index, SortBy, AnyService, AnyDatabase, DatabaseActive, WithService, Own, ValidName, ServiceTeam, TeamFile,
         DatabaseManifest, TemplateComponents, GoldenReadable, AllAllowed, SourceFiles;
    var p, tenants := q.p, TenantsOf(repo);
    assert ValidName(p.name, 48) by { NameFits(q); }
    FreshIsUnused(repo, p);
    OwnPathsAllowed(p);
    var team := NewTenant(p.team, ServiceTeam(p).owners);
    var k := NewTeamAt(tenants, team);
    NoDatabases(team, p.name);
    ScaffoldActionsAre(p);
  }

  lemma NameFits(q: Request)
    requires RequestOk(q) && IsServiceOperation(q.operation)
    ensures ValidName(q.p.name, 48)
  {
    hide ValidName, IsUuid;
  }

  /** After the scaffold the service serves nothing yet and has all its files. */
  lemma ScaffoldStage(repo: Repository, q: Request) returns (next: Repository, i: nat)
    requires Healthy(repo) && RequestOk(q) && OwnScaffold(q) && FreshService(repo, q.p) && GoldenReadable(repo, q.p.template)
    ensures Step(repo, q, next) && Stage(repo, next, q.p, i) && Serving(TenantsOf(next)[i])
    ensures TenantsOf(next)[i].applications == [] && TenantsOf(next)[i].services[0].lifecycle.Scaffolded?
  {
    hide Execute, Consistent, RequestOk, PlanServiceScaffold, FilesAfter, GapFree, Rendered, View, UniqueNames, AllNames, TenantOk, AnyDatabase, Own, Clear,
         Furnished, WithService, ScaffoldActions, Step, FreshService, GoldenReadable, Valid, Owned, ValidName, NewTeam, SortBy;
    var p, tenants, plan := q.p, TenantsOf(repo), PlanOf(repo, TenantsOf(repo), q);
    ScaffoldIsClear(repo, q);
    ClearWrites(repo, plan.actions);
    next := ClearStep(repo, q);
    assert ValidName(p.name, 48) by { NameFits(q); }
    FreshMeans(repo, p);
    i := ScaffoldHosts(repo, q, next);
    StepIsPlan(repo, q, next);
    StepIsHealthy(repo, q, next);
    UniqueTenants(repo);
    var k := ScaffoldPlanIs(tenants, q);
    var team := NewTenant(p.team, ServiceTeam(p).owners);
    NewTeamHasService(TenantsOf(next)[i], p);
    NewTeamAfter(team, p);
    SameTeam(next, p, i, k);
    ScaffoldFurnishes(repo, q, next, plan);
  }

  lemma FreshMeans(repo: Repository, p: Parameters)
    requires FreshService(repo, p)
    ensures (forall path <- repo :: !Own(p, path)) && (Loads(repo) ==> !AnyDatabase(TenantsOf(repo), p.name))
  {
    hide Own, Loads, AnyDatabase;
  }

  lemma UniqueTenants(repo: Repository)
    requires Loads(repo)
    ensures UniqueNames(AllNames(TenantsOf(repo))) && Separate(TenantsOf(repo))
  {
    hide UniqueNames, AllNames, TenantOk, Separate;
    UniqueIsSeparate(TenantsOf(repo));
  }

  lemma SameTeam(repo: Repository, p: Parameters, i: nat, k: nat)
    requires Loads(repo) && i < |TenantsOf(repo)| && k < |TenantsOf(repo)| && TenantsOf(repo)[i].name == TenantsOf(repo)[k].name
    ensures i == k
  {
    hide Loads, Separate;
    UniqueTenants(repo);
    if i < k {
      TwoTeams(TenantsOf(repo), i, k);
    } else if k < i {
      TwoTeams(TenantsOf(repo), k, i);
    }
  }

  lemma NewTeamAfter(team: Tenant, p: Parameters)
    requires team.name == p.name && team.lifecycle.Active? && team.applications == [] && team.databases == [] && team.services == []
    ensures var t := WithService(team, p);
            && t.name == p.name && Serving(t) && t.applications == [] && t.services == [NewService(p)] && OnlyOwn(t, p)
            && t.databases == if p.withDatabase then [NewEntry(DatabaseLeaf(p.name), "")] else []
  {
    hide SortBy, TemplateComponents;
    SortOne(NewService(p), ServiceName);
    SortOne(NewEntry(DatabaseLeaf(p.name), ""), EntryName);
  }

  lemma ScaffoldFurnishes(repo: Repository, q: Request, next: Repository, plan: Plan)
    requires Healthy(repo) && OwnScaffold(q) && (forall path <- repo :: !Own(q.p, path)) && Execute(repo, plan.actions).Ok? && next == FilesAfter(repo, plan)
    requires UniqueNames(AllNames(TenantsOf(repo))) && (q.p.withDatabase ==> !AnyDatabase(TenantsOf(repo), q.p.name))
    requires plan == PlanServiceScaffold(TenantsOf(repo), q)
    requires plan.actions == [WriteLeaf(TeamLeaf(q.p.team), TeamFile(q.p.team, ServiceTeam(q.p)))] + ScaffoldActions(q.p)
    ensures Furnished(next, WithService(NewTenant(q.p.team, ServiceTeam(q.p).owners), q.p), q.p)
  {
    hide Execute, Consistent, FilesAfter, PlanServiceScaffold, Own, SourceFiles, TemplateComponents, SortBy, TeamFile, DatabaseManifest, ServiceTeam, WithService,
         UniqueNames, AllNames, AnyDatabase, Unanimous;
    var p := q.p;
    var team := NewTenant(p.team, ServiceTeam(p).owners);
    var t := WithService(team, p);
    NewTeamAfter(team, p);
    ServiceScaffoldAccounted(repo, TenantsOf(repo), q);
    AccountedIsUnanimous(repo, TenantsOf(repo), plan, q);
    ScaffoldActionsAre(p);
    assert WriteSource(NewService(p)) in plan.actions;
    KustomizationWritten(repo, plan, TeamLeaf(p.team), TeamFile(p.team, ServiceTeam(p)));
    if p.withDatabase {
      assert ScaffoldActions(p)[0] in plan.actions;
      KustomizationWritten(repo, plan, DatabaseLeaf(p.name), ScaffoldActions(p)[0].manifest);
    }
    forall f | f in SourceFiles(p.template) ensures Source(p.name, f) in next {
      SourceWritten(repo, plan, NewService(p), f);
    }
    forall path <- next | path.Source? && path.service == p.name ensures path.file in SourceFiles(p.template) {
      assert Own(p, path) by { SourceIsOwn(p, path); }
      var a := SourceCreated(repo, plan, path);
    }
  }

  lemma SourceIsOwn(p: Parameters, path: Path)
    requires path.Source? && path.service == p.name
    ensures Own(p, path)
  {
  }

  // ---------------------------------------------------------------- activate

  lemma {:induction false} ComponentsClear(entries: seq<Entry>, team: string, s: Service, components: seq<string>)
    requires forall e <- entries :: e.lifecycle.Active?
    ensures AllWrites(ComponentActions(team, entries, s, components))
    ensures forall e <- WithComponents(entries, s, components) :: e.lifecycle.Active?
    decreases |components|
  {
    hide Index, ComponentFile, ComponentRef;
    if components != [] {
      ComponentsClear(entries, team, s, components[..|components| - 1]);
    }
  }

  /** A listed component of another team would have left files that only the service has. */
  lemma ComponentsAreOwn(before: Repository, repo: Repository, p: Parameters, i: nat)
    requires Stage(before, repo, p, i)
    ensures ComponentsFresh(TenantsOf(repo), i, TemplateComponents(p.name, p.template))
  {
    hide Consistent, UniqueNames, AllNames, TeamOk, DatabaseOk, ServiceOk, TemplateComponents, Separate, Furnished, NewTeam, Beside, GoldenReadable, ValidName, LifecycleOk;
    var tenants, components := TenantsOf(repo), TemplateComponents(p.name, p.template);
    UniqueTenants(repo);
    forall k, c | 0 <= k < |tenants| && k != i && c in components ensures !HasEntry(tenants[k].applications, c) {
      if HasEntry(tenants[k].applications, c) {
        ComponentElsewhere(repo, p, i, k, c);
      }
    }
  }

  lemma ComponentElsewhere(repo: Repository, p: Parameters, i: nat, k: nat, c: string)
    requires Loads(repo) && i < |TenantsOf(repo)| && k < |TenantsOf(repo)| && Owned(repo, TenantsOf(repo)[i], p)
    requires c in TemplateComponents(p.name, p.template) && HasEntry(TenantsOf(repo)[k].applications, c)
    ensures i == k
  {
    hide UniqueNames, AllNames, TeamOk, DatabaseOk, ServiceOk, TemplateComponents, ValidName, LifecycleOk;
    var tenants := TenantsOf(repo);
    var e :| e in tenants[k].applications && e.name == c;
    assert TenantOk(repo.Keys, tenants[k]) && ApplicationOk(repo.Keys, tenants[k].databases, e);
    var path :| path in repo && InLeaf(path, AppLeaf(c));
    assert Own(p, path);
    assert TenantHas(tenants[i], AppLeaf(c)) && TenantHas(tenants[k], AppLeaf(c));
    UniqueTenants(repo);
  }

  /** A plan that drops nothing keeps the service furnished. */
  lemma StaysFurnished(repo: Repository, plan: Plan, t: Tenant, after: Tenant, p: Parameters)
    requires Furnished(repo, t, p) && OnlyOwn(after, p) && Execute(repo, plan.actions).Ok? && NoDrops(plan.actions) && Unanimous(plan.actions)
    requires forall leaf :: TenantHas(after, leaf) ==> TenantHas(t, leaf) || exists a <- plan.actions :: a.WriteLeaf? && a.leaf == leaf
    requires forall a <- plan.actions :: !a.WriteSource?
    ensures Furnished(FilesAfter(repo, plan), after, p)
  {
    hide Execute, FilesAfter, Unanimous, OnlyOwn, TenantHas, SourceFiles;
    var next := FilesAfter(repo, plan);
    forall leaf | TenantHas(after, leaf) ensures Kustomization(leaf) in next {
      if TenantHas(t, leaf) {
        Survives(repo, plan, Kustomization(leaf));
      } else {
        var a :| a in plan.actions && a.WriteLeaf? && a.leaf == leaf;
        KustomizationWritten(repo, plan, leaf, a.manifest);
      }
    }
    forall f | f in SourceFiles(p.template) ensures Source(p.name, f) in next {
      Survives(repo, plan, Source(p.name, f));
    }
    forall path <- next | path.Source? && path.service == p.name ensures path.file in SourceFiles(p.template) {
      if path !in repo {
        var a := SourceCreated(repo, plan, path);
        VersionIsListed(p.template);
      }
    }
  }

  lemma VersionIsListed(template: Template)
    ensures VersionFile in SourceFiles(template) && Descriptor in SourceFiles(template)
  {
  }

  /** The tenant, the plan and the pieces an activation puts together. */
  lemma ActivationPlan(repo: Repository, p: Parameters, i: nat, q: Request)
    returns (t: Tenant, s: Service, active: Service, after: seq<Entry>, writes: seq<Action>, changed: Tenant)
    requires Healthy(repo) && i < |TenantsOf(repo)| && NewTeam(TenantsOf(repo)[i], p) && Serving(TenantsOf(repo)[i])
    requires q.operation.ServiceActivate? && q.p.team == q.p.name == p.name
    ensures t == TenantsOf(repo)[i] && NewServiceOf(s, p) && NewServiceOf(active, p) && active.lifecycle.Active?
    ensures changed == t.(applications := SortBy(after, EntryName), services := t.services[0 := active])
    ensures PlanOf(repo, TenantsOf(repo), q) == Plan(TenantsOf(repo)[i := changed], writes + [WriteVersion(active)])
    ensures Activated(t.applications, after, writes, q.p.team, s, s.components) && forall e <- after :: e.lifecycle.Active?
  {
    hide Consistent, UniqueNames, AllNames, TenantOk, NewTeam, Index, SortBy, WithComponents, ComponentActions, Separate, Valid, Activated, DistinctBy;
    var tenants := TenantsOf(repo);
    HostedIndex(repo, p, i);
    t := tenants[i];
    NewTeamHasService(t, p);
    s := t.services[0].(version := q.p.version);
    active := s.(lifecycle := Active);
    after, writes := WithComponents(t.applications, s, s.components), ComponentActions(q.p.team, t.applications, s, s.components);
    changed := t.(applications := SortBy(after, EntryName), services := t.services[0 := active]);
    SeparateTenant(tenants, i);
    ComponentsClear(t.applications, q.p.team, s, s.components);
    ComponentsActivate(t.applications, q.p.team, s, s.components);
  }

  lemma ActivateStage(before: Repository, repo: Repository, p: Parameters, i: nat, q: Request) returns (next: Repository)
    requires Stage(before, repo, p, i) && Serving(TenantsOf(repo)[i]) && TenantsOf(repo)[i].services[0].lifecycle.Scaffolded?
    requires RequestOk(q) && q.operation.ServiceActivate? && q.p.team == q.p.name == p.name
    ensures Step(repo, q, next) && Stage(before, next, p, i) && Serving(TenantsOf(next)[i])
  {
    hide Execute, Consistent, RequestOk, PlanOf, FilesAfter, GapFree, Rendered, View, UniqueNames, AllNames, TenantOk, Own, Clear, Furnished, Step,
         Valid, Owned, ValidName, NewTeam, SortBy, Activated, Beside, ComponentFile, TemplateComponents, OnlyOwn, GoldenReadable, NoDrops;
    var tenants := TenantsOf(repo);
    var t, s, active, after, writes, changed := ActivationPlan(repo, p, i, q);
    var plan := PlanOf(repo, tenants, q);
    NewTeamHasService(t, p);
    ActivationIsClear(repo, p, t, after, writes, q.p.team, s, active);
    ComponentsAreOwn(before, repo, p, i);
    assert GapFree(tenants, q) by { ActivationGapFree(repo, p, i, q); }
    assert plan.tenants[i] != tenants[i];
    next := ClearStep(repo, q);
    ActivateHosts(before, repo, p, i, q, next);
    StepIsPlan(repo, q, next);
    StepIsHealthy(repo, q, next);
    PlanAgrees(repo, q);
    ActivationFurnishes(repo, p, t, after, writes, q.p.team, s, active, changed, plan);
    SortedActive(after);
  }

  lemma ActivationIsClear(repo: Repository, p: Parameters, t: Tenant, after: seq<Entry>, writes: seq<Action>, team: string, s: Service, active: Service)
    requires ValidName(p.name, 48) && NewServiceOf(s, p) && NewServiceOf(active, p) && Activated(t.applications, after, writes, team, s, s.components)
    ensures Clear(repo, writes + [WriteVersion(active)]) && NoDrops(writes + [WriteVersion(active)])
  {
    hide ValidName, TemplateComponents, ComponentFile, AllAllowed, SourceFiles;
    OwnPathsAllowed(p);
  }

  lemma ActivationGapFree(repo: Repository, p: Parameters, i: nat, q: Request)
    requires Healthy(repo) && i < |TenantsOf(repo)| && NewTeam(TenantsOf(repo)[i], p) && q.operation.ServiceActivate? && q.p.team == q.p.name == p.name
    requires ComponentsFresh(TenantsOf(repo), i, TemplateComponents(p.name, p.template))
    ensures GapFree(TenantsOf(repo), q)
  {
    hide Consistent, UniqueNames, AllNames, TenantOk, NewTeam, Index, Valid, Separate, ComponentsFresh, TemplateComponents;
    HostedIndex(repo, p, i);
    NewTeamHasService(TenantsOf(repo)[i], p);
  }

  lemma PlanAgrees(repo: Repository, q: Request)
    requires Healthy(repo) && RequestOk(q) && GapFree(TenantsOf(repo), q) && Execute(repo, PlanOf(repo, TenantsOf(repo), q).actions).Ok?
    ensures Unanimous(PlanOf(repo, TenantsOf(repo), q).actions)
  {
    hide Consistent, UniqueNames, AllNames, TenantOk, RequestOk, GapFree, Execute, PlanOf, Accounted, Unanimous;
    Accounting(repo, TenantsOf(repo), q);
    AccountedIsUnanimous(repo, TenantsOf(repo), PlanOf(repo, TenantsOf(repo), q), q);
  }

  lemma ActivationFurnishes(repo: Repository, p: Parameters, t: Tenant, after: seq<Entry>, writes: seq<Action>, team: string, s: Service, active: Service,
                            changed: Tenant, plan: Plan)
    requires Furnished(repo, t, p) && NewServiceOf(s, p) && Activated(t.applications, after, writes, team, s, s.components)
    requires |t.services| == 1 && changed == t.(applications := SortBy(after, EntryName), services := t.services[0 := active])
    requires plan.actions == writes + [WriteVersion(active)] && Execute(repo, plan.actions).Ok? && NoDrops(plan.actions) && Unanimous(plan.actions)
    ensures Furnished(FilesAfter(repo, plan), changed, p)
  {
    hide Execute, FilesAfter, Unanimous, Furnished, SortBy, TemplateComponents, ComponentFile;
    assert OnlyOwn(changed, p) by { FurnishedOwns(repo, t, p); ActivatedOwns(t, after, writes, team, s, p); }
    forall leaf | TenantHas(changed, leaf) ensures TenantHas(t, leaf) || exists a <- plan.actions :: a.WriteLeaf? && a.leaf == leaf {
      if leaf.AppLeaf? {
        var e :| e in changed.applications && e.name == leaf.name;
        SortedMembers(after, EntryName, e);
        if e.name in s.components {
          assert WriteLeaf(AppLeaf(e.name), ComponentFile(team, s, e.name)) in plan.actions;
        }
      }
    }
    StaysFurnished(repo, plan, t, changed, p);
  }

  lemma FurnishedOwns(repo: Repository, t: Tenant, p: Parameters)
    requires Furnished(repo, t, p)
    ensures OnlyOwn(t, p)
  {
    hide OnlyOwn, SourceFiles, TenantHas;
  }

  lemma ActivatedOwns(t: Tenant, after: seq<Entry>, writes: seq<Action>, team: string, s: Service, p: Parameters)
    requires OnlyOwn(t, p) && NewServiceOf(s, p) && Activated(t.applications, after, writes, team, s, s.components)
    ensures OnlyOwn(t.(applications := SortBy(after, EntryName)), p)
  {
    hide SortBy, TemplateComponents, ComponentFile;
    forall e ensures e in SortBy(after, EntryName) <==> e in after {
      SortedMembers(after, EntryName, e);
    }
  }

  lemma SortedActive(after: seq<Entry>)
    requires forall e <- after :: e.lifecycle.Active?
    ensures forall e <- SortBy(after, EntryName) :: e.lifecycle.Active?
  {
    hide SortBy;
    forall e ensures e in SortBy(after, EntryName) <==> e in after {
      SortedMembers(after, EntryName, e);
    }
  }

  // ---------------------------------------------------------------- the leaves of the service

  lemma OwnLeaves(t: Tenant, p: Parameters, leaf: Leaf)
    requires t.name == p.name && OnlyOwn(t, p) && TenantHas(t, leaf) && ValidName(p.name, 48)
    ensures OwnLeafOf(p, leaf) && Allowed(Manifest(leaf))
  {
    hide ValidName, TemplateComponents, SourceFiles, AllAllowed;
    OwnPathsAllowed(p);
  }

  lemma LeafPresent(repo: Repository, t: Tenant, leaf: Leaf)
    requires Healthy(repo) && t in TenantsOf(repo) && TenantHas(t, leaf)
    ensures Manifest(leaf) in repo && repo[Manifest(leaf)].ManifestFile?
  {
    hide Valid, TenantHas, TenantLists, Stored;
    assert HasLeaf(TenantsOf(repo), leaf);
    var l := ListingOf(TenantsOf(repo), leaf);
    assert LeafAgrees(repo, l);
  }

  // ---------------------------------------------------------------- retire

  lemma RetireStage(before: Repository, repo: Repository, p: Parameters, i: nat, q: Request) returns (next: Repository)
    requires Stage(before, repo, p, i) && Serving(TenantsOf(repo)[i])
    requires RequestOk(q) && q.operation.ServiceRetire? && q.p.team == q.p.name == p.name
    ensures Step(repo, q, next) && Stage(before, next, p, i) && Leaving(TenantsOf(next)[i], q.id)
  {
    hide Execute, Consistent, RequestOk, FilesAfter, Rendered, View, UniqueNames, AllNames, TenantOk, Own, Clear, Furnished, Step, Valid, Owned, ValidName,
         NewTeam, Beside, OnlyOwn, GoldenReadable, NoDrops, Index, RetireService, ApproveNamed, OwnedDatabase, Separate, Serving, Leaving;
    var tenants := TenantsOf(repo);
    var t := tenants[i];
    HostedIndex(repo, p, i);
    NewTeamHasService(t, p);
    ServingMeans(t);
    var plan := PlanOf(repo, tenants, q);
    assert plan == PlanServiceRetire(tenants, i, q) && plan.tenants == tenants[i := RetireService(t, 0, q.id)];
    RetirementActions(tenants, i, 0, q);
    FurnishedOwns(repo, t, p);
    ApprovalsClear(repo, t, p, plan.actions);
    SeparateTenant(tenants, i);
    RetiredLeaves(t, p, q.id);
    assert plan.tenants[i] != tenants[i];
    next := ClearStep(repo, q);
    RetireHosts(before, repo, p, i, q, next);
    StepIsPlan(repo, q, next);
    StepIsHealthy(repo, q, next);
    PlanAgrees(repo, q);
    StaysFurnished(repo, plan, t, RetireService(t, 0, q.id), p);
  }

  lemma ServingMeans(t: Tenant)
    requires Serving(t)
    ensures t.lifecycle.Active? && forall s <- t.services :: !s.lifecycle.Retiring?
  {
  }

  lemma ApprovalsClear(repo: Repository, t: Tenant, p: Parameters, actions: seq<Action>)
    requires Healthy(repo) && t in TenantsOf(repo) && t.name == p.name && OnlyOwn(t, p) && ValidName(p.name, 48)
    requires forall a <- actions :: a.Approve? && TenantHas(t, a.leaf)
    ensures Clear(repo, actions) && NoDrops(actions)
  {
    hide Healthy, OnlyOwn, ValidName, TenantHas;
    forall a <- actions ensures Blocked(repo, a).None? {
      OwnLeaves(t, p, a.leaf);
      LeafPresent(repo, t, a.leaf);
    }
  }

  /** Everything the service lists retires, and nothing else is listed. */
  lemma RetiredLeaves(t: Tenant, p: Parameters, id: string)
    requires NewTeam(t, p) && OnlyOwn(t, p) && Serving(t) && DistinctBy(t.applications, EntryName) && DistinctBy(t.databases, EntryName)
    ensures var after := RetireService(t, 0, id);
            Leaving(after, id) && after != t && OnlyOwn(after, p) && forall leaf :: TenantHas(after, leaf) ==> TenantHas(t, leaf)
  {
    hide RetireNamed, NamedRetired, TemplateComponents, Index;
    var s, after := t.services[0], RetireService(t, 0, id);
    NamesRetire(t.applications, s.components, id);
    RetiredAre(t.applications, after.applications, s.components, id);
    if t.databases != [] {
      assert t.databases[0] in t.databases;
      OwnedFound(t, p);
      var k := OwnedDatabase(t, s);
      forall d | 0 <= d < |t.databases| ensures after.databases[d].lifecycle.Retiring? && after.databases[d].request == id {
        assert EntryName(t.databases[d]) == EntryName(t.databases[k]) == p.name;
      }
    }
  }

  lemma RetiredAre(before: seq<Entry>, after: seq<Entry>, names: seq<string>, id: string)
    requires NamedRetired(before, after, names, id) && forall e <- before :: e.name in names
    ensures forall e <- after :: e.name in names && HasEntry(before, e.name) && e.lifecycle.Retiring? && e.request == id
  {
  }

  // ---------------------------------------------------------------- finalize

  lemma {:induction false} DropsClear(entries: seq<Entry>, names: seq<string>, p: Parameters)
    requires forall e <- entries :: e.lifecycle.Retiring? && e.request == p.deletionRequest
    ensures AllWrites(DropNamed(entries, names, p))
    decreases |names|
  {
    if names != [] {
      DropsClear(entries, names[..|names| - 1], p);
    }
  }

  lemma FinalizeStage(before: Repository, repo: Repository, p: Parameters, i: nat, q: Request) returns (next: Repository)
    requires Stage(before, repo, p, i) && Leaving(TenantsOf(repo)[i], q.p.deletionRequest)
    requires RequestOk(q) && q.operation.ServiceFinalize? && q.p.team == q.p.name == p.name
    ensures Step(repo, q, next) && Restored(before, next)
  {
    hide Execute, Consistent, RequestOk, FilesAfter, Rendered, View, UniqueNames, AllNames, TenantOk, Own, Clear, Furnished, Step, Valid, Owned, ValidName,
         NewTeam, Beside, OnlyOwn, GoldenReadable, Index, DropNamed, OwnedDatabase, Separate, Leaving, Without, Restored, Derived, TenantHas;
    var tenants := TenantsOf(repo);
    var t := tenants[i];
    HostedIndex(repo, p, i);
    NewTeamHasService(t, p);
    var plan := PlanOf(repo, tenants, q);
    assert plan == PlanServiceFinalize(tenants, i, q) by { LeavingMeans(t, q.p.deletionRequest); }
    FinalizationWrites(tenants, i, p, q);
    FinalizationActions(repo, tenants, i, 0, q);
    DropsAreClear(before, repo, p, i, plan.actions);
    FewerTenants(tenants, i);
    assert plan.tenants == Without(tenants, TenantName, [t.name]);
    next := ClearStep(repo, q);
    FinalizeRestores(before, repo, p, i, q, next);
  }

  lemma LeavingMeans(t: Tenant, id: string)
    requires Leaving(t, id)
    ensures t.lifecycle.Retiring? && t.request == id && (forall s <- t.services :: s.lifecycle.Retiring? && s.request == id)
    ensures (forall a <- t.applications :: a.lifecycle.Retiring? && a.request == id) && forall d <- t.databases :: d.lifecycle.Retiring? && d.request == id
  {
  }

  lemma FinalizationWrites(tenants: seq<Tenant>, i: nat, p: Parameters, q: Request)
    requires i < |tenants| && NewTeam(tenants[i], p) && Leaving(tenants[i], q.p.deletionRequest)
    requires Index(tenants[i].services, ServiceName, q.p.name) == 0
    ensures AllWrites(PlanServiceFinalize(tenants, i, q).actions)
    ensures IsRetiringUnder(tenants[i].services[0].lifecycle, tenants[i].services[0].request, q.p)
    ensures PlanServiceFinalize(tenants, i, q).tenants == Without(tenants, TenantName, [tenants[i].name])
  {
    hide Index, DropNamed, Without, OwnedDatabase, NewTeam, Leaving;
    var t := tenants[i];
    NewTeamHasService(t, p);
    LeavingMeans(t, q.p.deletionRequest);
    assert t.services[0] in t.services;
    DropsClear(t.applications, t.services[0].components, q.p);
  }

  lemma DropsAreClear(before: Repository, repo: Repository, p: Parameters, i: nat, actions: seq<Action>)
    requires Stage(before, repo, p, i)
    requires var t := TenantsOf(repo)[i]; forall a <- actions :: (a.DropLeaf? && TenantHas(t, a.leaf)) || a == DropSource(t.services[0])
    ensures Clear(repo, actions)
  {
    hide Consistent, Valid, NewTeam, Owned, Furnished, Own, ValidName, TenantHas, Beside, GoldenReadable;
    var t := TenantsOf(repo)[i];
    NewTeamHasService(t, p);
    FurnishedOwns(repo, t, p);
    forall a <- actions ensures Blocked(repo, a).None? {
      if a.DropLeaf? {
        OwnLeaves(t, p, a.leaf);
        LeafPresent(repo, t, a.leaf);
        DropIsClear(repo, t, p, a.leaf);
      } else {
        SourceIsClear(before, repo, p, i, t.services[0]);
      }
    }
  }

  lemma DropIsClear(repo: Repository, t: Tenant, p: Parameters, leaf: Leaf)
    requires Furnished(repo, t, p) && Owned(repo, t, p) && TenantHas(t, leaf) && OwnLeafOf(p, leaf) && Allowed(Manifest(leaf)) && Manifest(leaf) in repo
    ensures Blocked(repo, DropLeaf(leaf)).None?
  {
    hide OnlyOwn, TenantHas, ValidName, SourceFiles, OwnLeafOf, HasEntry;
    assert InLeaf(Manifest(leaf), leaf);
  }

  lemma SourceIsClear(before: Repository, repo: Repository, p: Parameters, i: nat, s: Service)
    requires Stage(before, repo, p, i) && NewServiceOf(s, p)
    ensures Blocked(repo, DropSource(s)).None?
  {
    hide Healthy, NewTeam, Owned, ValidName, TenantHas, Beside, OnlyOwn, TemplateComponents, SourceFiles, AllAllowed;
    OwnPathsAllowed(p);
    assert forall test :: !Own(p, Golden(test));
  }

  lemma FewerTenants(tenants: seq<Tenant>, i: nat)
    requires Separate(tenants) && i < |tenants|
    ensures Without(tenants, TenantName, [tenants[i].name]) != tenants
  {
    hide Separate, Without;
    OthersRemain(tenants, i);
    assert |multiset(tenants[..i] + tenants[i + 1..])| == |tenants| - 1;
  }

  // ---------------------------------------------------------------- the whole life

  /** From any healthy repository that can generate the template and has nothing of
      the name, four well-formed requests go through, whatever the first two ask for
      besides, and leave every file and every tenant as it was. */
  lemma ServiceComesAndGoes(r0: Repository, scaffold: Request, activate: Option<Request>, retire: Request, finalize: Request)
    returns (r1: Repository, r2: Repository, r3: Repository, r4: Repository)
    requires Healthy(r0) && RequestOk(scaffold) && OwnScaffold(scaffold) && FreshService(r0, scaffold.p) && GoldenReadable(r0, scaffold.p.template)
    requires activate.Some? ==> RequestOk(activate.value) && activate.value.operation.ServiceActivate?
                                && activate.value.p.team == activate.value.p.name == scaffold.p.name
    requires RequestOk(retire) && retire.operation.ServiceRetire? && retire.p.team == retire.p.name == scaffold.p.name
    requires RequestOk(finalize) && finalize.operation.ServiceFinalize? && finalize.p.team == finalize.p.name == scaffold.p.name
    requires finalize.p.deletionRequest == retire.id
    ensures Step(r0, scaffold, r1) && (match activate case None => r2 == r1 case Some(q) => Step(r1, q, r2))
    ensures Step(r2, retire, r3) && Step(r3, finalize, r4) && Restored(r0, r4)
  {
    hide Healthy, RequestOk, FreshService, GoldenReadable, Step, Restored, Furnished, Serving, Leaving, NewTeam, Owned, Own, ValidName, Beside;
    var p := scaffold.p;
    var i;
    r1, i := ScaffoldStage(r0, scaffold);
    r2 := r1;
    if activate.Some? {
      r2 := ActivateStage(r0, r1, p, i, activate.value);
    }
    r3 := RetireStage(r0, r2, p, i, retire);
    r4 := FinalizeStage(r0, r3, p, i, finalize);
  }
}
