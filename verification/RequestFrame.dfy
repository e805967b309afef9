/** Which files a request may change: all others stay as they are. */
module RequestFrame {
  import opened Wrappers
  import opened Catalog
  import opened CatalogFacts
  import opened ChangePlan
  import opened ChangeSets
  import opened OverlayFacts
  import opened RenderSafety
  import opened RenderAccounting
  import opened ServiceAccounting
  import opened CatalogPreserved
  import opened OperationSoundness
  import opened ServiceSoundness
  import opened ManifestFields
  import opened RenderRuns
  import opened ServiceLifecycle
  import opened RequestEffects

  /** The leaves a request is about. */
  ghost predicate ConcernsLeaf(tenants: seq<Tenant>, q: Request, leaf: Leaf) {
    var p := q.p;
    match q.operation
    case TeamCreate => leaf == TeamLeaf(p.name)
    case TeamUpdate => leaf == TeamLeaf(p.name)
    case TeamDelete => exists t <- tenants :: t.name == p.name && TenantHas(t, leaf)
    case TeamFinalize => exists t <- tenants :: t.name == p.name && TenantHas(t, leaf)
    case AppCreate => leaf == AppLeaf(p.name)
    case AppUpdate => leaf == AppLeaf(p.name)
    case AppDelete => leaf == AppLeaf(p.name)
    case AppFinalize => leaf == AppLeaf(p.name)
    case DatabaseCreate => leaf == DatabaseLeaf(p.name)
    case DatabaseRestore => leaf == DatabaseLeaf(p.name)
    case DatabaseUpdate => leaf == DatabaseLeaf(p.name)
    case DatabaseDelete => leaf == DatabaseLeaf(p.name)
    case DatabaseFinalize => leaf == DatabaseLeaf(p.name)
    case ServiceScaffold => (p.withDatabase && leaf == DatabaseLeaf(p.name)) || (p.createTeam && leaf == TeamLeaf(p.team))
    case ServiceActivate => exists t <- tenants, s <- t.services :: t.name == p.team && s.name == p.name && leaf.AppLeaf? && leaf.name in s.components
    case ServiceRetire => exists t <- tenants, s <- t.services :: t.name == p.team && s.name == p.name && Belongs(t, s, leaf)
    case ServiceFinalize => exists t <- tenants, s <- t.services :: t.name == p.team && s.name == p.name && Belongs(t, s, leaf)
  }

  /** A deletion marks manifests and leaves the directories as they are. */
  ghost predicate Marks(q: Request) { q.operation in {TeamDelete, AppDelete, DatabaseDelete, ServiceRetire} }

  /** The source files a request is about. */
  ghost predicate ConcernsSource(tenants: seq<Tenant>, q: Request, service: string, f: SourceFile) {
    match q.operation
    case ServiceScaffold => service == q.p.name && Generates(q.p.template, f)
    case ServiceActivate => service == q.p.name && (f == VersionFile || f == Descriptor)
    case ServiceFinalize => service == q.p.name
    case TeamFinalize => exists t <- tenants, s <- t.services :: t.name == q.p.name && s.name == service
    case _ => false
  }

  /** The files a request is about. */
  ghost predicate Concerns(tenants: seq<Tenant>, q: Request, path: Path) {
    match path
    case CatalogPath => true
    case Manifest(leaf) => ConcernsLeaf(tenants, q, leaf)
    case Kustomization(leaf) => ConcernsLeaf(tenants, q, leaf) && !Marks(q)
    case Source(service, f) => ConcernsSource(tenants, q, service, f)
    case _ => false
  }

  // ---------------------------------------------------------------- actions

  /** An action keeps to what the request is about. */
  ghost predicate KeepsTo(tenants: seq<Tenant>, q: Request, a: Action) {
    match a
    case Fail(_) => true
    case WriteLeaf(leaf, _) => ConcernsLeaf(tenants, q, leaf) && !Marks(q)
    case Approve(leaf, _, _) => ConcernsLeaf(tenants, q, leaf)
    case DropLeaf(leaf) => ConcernsLeaf(tenants, q, leaf) && !Marks(q)
    case WriteSource(s) => forall f :: Generates(s.template, f) ==> ConcernsSource(tenants, q, s.path, f)
    case WriteVersion(s) => ConcernsSource(tenants, q, s.path, VersionFile) && ConcernsSource(tenants, q, s.path, Descriptor)
    case DropSource(s) => forall f :: ConcernsSource(tenants, q, s.path, f)
  }

  lemma EffectKeepsTo(repo: Repository, tenants: seq<Tenant>, q: Request, a: Action, path: Path)
    requires KeepsTo(tenants, q, a) && Blocked(repo, a).None? && path in Effect(repo, a)
    ensures Concerns(tenants, q, path)
  {
    hide ConcernsLeaf, ConcernsSource, Allowed, LeafExists, OnlyGenerated, SourceFiles, SourceContent, Marked, AllAllowed;
    match a {
      case WriteSource(s) =>
        SetFilesAt(repo, s, SourceFiles(s.template), path);
        TemplateGenerates(s.template);
      case WriteVersion(s) => SetFilesAt(repo, s, [VersionFile, Descriptor], path);
      case DropSource(s) => RemoveFilesAt(repo, s.path, SourceFiles(s.template), path);
      case _ =>
    }
  }

  lemma {:induction false} OthersStay(repo: Repository, tenants: seq<Tenant>, q: Request, actions: seq<Action>, path: Path)
    requires Execute(repo, actions).Ok? && !Concerns(tenants, q, path) && forall a <- actions :: KeepsTo(tenants, q, a)
    ensures path !in Execute(repo, actions).value
    decreases |actions|
  {
    hide Blocked, Effect, Concerns, KeepsTo;
    if actions != [] {
      var last := actions[|actions| - 1];
      OthersStay(repo, tenants, q, actions[..|actions| - 1], path);
      if path in Effect(repo, last) {
        EffectKeepsTo(repo, tenants, q, last, path);
      }
    }
  }

  // ---------------------------------------------------------------- plans

  lemma EntryKeepsTo(repo: Repository, tenants: seq<Tenant>, i: nat, q: Request)
    requires q.operation in {AppCreate, AppUpdate, AppDelete, AppFinalize, DatabaseCreate, DatabaseRestore, DatabaseUpdate, DatabaseDelete, DatabaseFinalize}
    requires i < |tenants| && Derived(tenants) && AllWrites(PlanIn(repo, tenants, i, q).actions)
    ensures forall a <- PlanIn(repo, tenants, i, q).actions :: KeepsTo(tenants, q, a)
  {
    hide Index, AddEntry, Without, AnyApplication, AnyDatabase, DatabaseActive, DatabaseInUse, UpdatedDatabase, AppFile, DatabaseManifest, Generates,
         ConcernsSource;
    RefusalFails(tenants, Conflict);
    RefusalFails(tenants, NotFound);
    var t := tenants[i];
    OwnPaths(tenants, t);
    var a, d := Index(t.applications, EntryName, q.p.name), Index(t.databases, EntryName, q.p.name);
    assert a >= 0 ==> t.applications[a] in t.applications && EntryName(t.applications[a]) == q.p.name;
    assert d >= 0 ==> t.databases[d] in t.databases && EntryName(t.databases[d]) == q.p.name;
    if q.operation.DatabaseUpdate? && UpdatedDatabase(repo, q.p).Err? {
      RefusalFails(tenants, UpdatedDatabase(repo, q.p).error);
    }
  }

  lemma TeamKeepsTo(tenants: seq<Tenant>, i: nat, q: Request)
    requires i < |tenants| && Derived(tenants) && tenants[i].name == q.p.name
    ensures q.operation.TeamDelete? ==> forall a <- PlanTeamDelete(tenants, i, q).actions :: KeepsTo(tenants, q, a)
    ensures q.operation.TeamFinalize? && AllWrites(PlanTeamFinalize(tenants, i, q).actions) ==>
              forall a <- PlanTeamFinalize(tenants, i, q).actions :: KeepsTo(tenants, q, a)
  {
    hide TenantHas, Approvals, Drops, SourceDrops, Without;
    var t := tenants[i];
    assert t in tenants;
    OwnPaths(tenants, t);
    RefusalFails(tenants, Conflict);
    if q.operation.TeamDelete? {
      forall a <- PlanTeamDelete(tenants, i, q).actions ensures KeepsTo(tenants, q, a) {
        ApprovalIsOwn(t, q, a);
      }
    } else if q.operation.TeamFinalize? && AllWrites(PlanTeamFinalize(tenants, i, q).actions) {
      forall a <- PlanTeamFinalize(tenants, i, q).actions ensures KeepsTo(tenants, q, a) {
        FinalizeDropsOwn(t, q, a);
      }
    }
  }

  lemma ScaffoldKeepsTo(tenants: seq<Tenant>, q: Request)
    requires q.operation.ServiceScaffold? && AllWrites(PlanServiceScaffold(tenants, q).actions)
    ensures forall a <- PlanServiceScaffold(tenants, q).actions :: KeepsTo(tenants, q, a)
  {
    hide Index, SortBy, ScaffoldActions, WithService, AnyService, DatabaseActive, ServiceTeam, TeamFile, Generates;
    var p := q.p;
    RefusalFails(tenants, Conflict);
    RefusalFails(tenants, NotFound);
    ScaffoldActionsAre(p);
    assert forall a <- ScaffoldActions(p) :: KeepsTo(tenants, q, a);
    var i := Index(tenants, TenantName, p.team);
    if i >= 0 {
      FailsLast([]);
    } else {
      FailsLast([WriteLeaf(TeamLeaf(p.team), TeamFile(p.team, ServiceTeam(p)))]);
    }
  }

  lemma ActivateKeepsTo(repo: Repository, tenants: seq<Tenant>, i: nat, q: Request)
    requires i < |tenants| && Separate(tenants) && Derived(tenants) && tenants[i].name == q.p.team && q.operation.ServiceActivate?
    requires AllWrites(PlanServiceActivate(tenants, i, q).actions)
    ensures forall a <- PlanServiceActivate(tenants, i, q).actions :: KeepsTo(tenants, q, a)
  {
    hide Index, SortBy, WithComponents, ComponentActions, Separate, Derived, ComponentFile, DistinctBy;
    RefusalFails(tenants, Conflict);
    RefusalFails(tenants, NotFound);
    var t, j := tenants[i], Index(tenants[i].services, ServiceName, q.p.name);
    var s := t.services[j].(version := q.p.version);
    assert t in tenants && t.services[j] in t.services && ServiceName(t.services[j]) == q.p.name;
    OwnPaths(tenants, t);
    SeparateTenant(tenants, i);
    var writes := ComponentActions(q.p.team, t.applications, s, s.components);
    assert forall a <- writes :: a in PlanServiceActivate(tenants, i, q).actions;
    ComponentsActivate(t.applications, q.p.team, s, s.components);
    assert forall a <- writes :: KeepsTo(tenants, q, a);
  }

  lemma LeavingKeepsTo(repo: Repository, tenants: seq<Tenant>, i: nat, q: Request)
    requires i < |tenants| && Derived(tenants) && Shape(tenants[i]) && tenants[i].name == q.p.team && q.operation in {ServiceRetire, ServiceFinalize}
    requires AllWrites(PlanIn(repo, tenants, i, q).actions)
    ensures forall a <- PlanIn(repo, tenants, i, q).actions :: KeepsTo(tenants, q, a)
  {
    hide Index, ApproveNamed, DropNamed, OwnedDatabase, Derived, Without, FinalizeService, RetireService, Shape, Generates, Belongs, TenantHas;
    RefusalFails(tenants, Conflict);
    RefusalFails(tenants, NotFound);
    var t, j := tenants[i], Index(tenants[i].services, ServiceName, q.p.name);
    var s := t.services[j];
    assert t in tenants && s in t.services && ServiceName(s) == q.p.name;
    OwnPaths(tenants, t);
    if q.operation.ServiceRetire? {
      RetirementActions(tenants, i, j, q);
      forall a <- PlanServiceRetire(tenants, i, q).actions ensures KeepsTo(tenants, q, a) {
        OwnBelongs(t, s, a.leaf);
      }
    } else {
      FinalizationActions(repo, tenants, i, j, q);
      forall a <- PlanServiceFinalize(tenants, i, q).actions ensures KeepsTo(tenants, q, a) {
        if a.DropLeaf? {
          OwnBelongs(t, s, a.leaf);
        }
      }
    }
  }

  lemma OwnBelongs(t: Tenant, s: Service, leaf: Leaf)
    requires TenantHas(t, leaf) && Shape(t) && s in t.services
    requires leaf.AppLeaf? ==> leaf.name in s.components
    requires leaf.DatabaseLeaf? ==> OwnedDatabase(t, s) >= 0 && leaf.name == t.databases[OwnedDatabase(t, s)].name
    requires leaf.TeamLeaf? ==> s.ownsTeam
    ensures Belongs(t, s, leaf)
  {
    hide Index, Shape;
    if leaf.DatabaseLeaf? {
      assert EntryName(t.databases[OwnedDatabase(t, s)]) == leaf.name;
    }
  }

  // ---------------------------------------------------------------- the main result

  /** A request that goes through without a gap changes no file but those it is about. */
  lemma OnlyWhatItConcerns(repo: Repository, q: Request, next: Repository, path: Path)
    requires Healthy(repo) && Step(repo, q, next) && !Concerns(TenantsOf(repo), q, path)
    ensures (path in next <==> path in repo) && (path in repo ==> next[path] == repo[path])
  {
    hide Execute, Consistent, RequestOk, FilesAfter, GapFree, Rendered, View, Valid, Unanimous, PlanIn, Planned, Step, UniqueNames, AllNames,
         PlanTeamCreate, PlanServiceScaffold, Index, Separate, Derived, Shape, KeepsTo, Concerns;
    StepPlanned(repo, q, next);
    var tenants, plan := TenantsOf(repo), PlanOf(repo, TenantsOf(repo), q);
    PlannedWrites(repo, q, next, plan);
    if q.operation.TeamCreate? {
      TeamCreateKeepsTo(tenants, q);
    } else if q.operation.ServiceScaffold? {
      ScaffoldKeepsTo(tenants, q);
    } else {
      var i := PlanOfTarget(repo, q, next);
      PlanKeepsTo(repo, tenants, i, q);
    }
    OthersStay(repo, tenants, q, plan.actions, path);
    assert path != CatalogPath by { CatalogConcerns(tenants, q); }
    PathAfter(repo, plan, path);
  }

  lemma CatalogConcerns(tenants: seq<Tenant>, q: Request)
    ensures Concerns(tenants, q, CatalogPath)
  {
  }

  lemma PlannedWrites(repo: Repository, q: Request, next: Repository, plan: Plan)
    requires Planned(repo, q, next, plan)
    ensures AllWrites(plan.actions) && Execute(repo, plan.actions).Ok? && next == FilesAfter(repo, plan)
  {
    hide Loads, Execute, FilesAfter, Unanimous, RequestOk, Healthy, AllWrites;
  }

  lemma TeamCreateKeepsTo(tenants: seq<Tenant>, q: Request)
    requires q.operation.TeamCreate?
    ensures forall a <- PlanTeamCreate(tenants, q).actions :: KeepsTo(tenants, q, a)
  {
    hide Index, TeamFile, Generates;
  }

  lemma PlanKeepsTo(repo: Repository, tenants: seq<Tenant>, i: nat, q: Request)
    requires i < |tenants| && tenants[i].name == Target(q) && !q.operation.TeamCreate? && !q.operation.ServiceScaffold?
    requires Separate(tenants) && Derived(tenants) && (forall t <- tenants :: Shape(t)) && AllWrites(PlanIn(repo, tenants, i, q).actions)
    ensures forall a <- PlanIn(repo, tenants, i, q).actions :: KeepsTo(tenants, q, a)
  {
    hide Separate, Derived, Shape, KeepsTo, PlanTeamDelete, PlanTeamFinalize, PlanAppCreate, PlanAppUpdate, PlanAppDelete, PlanAppFinalize,
         PlanDatabaseCreate, PlanDatabaseUpdate, PlanDatabaseDelete, PlanDatabaseFinalize, PlanServiceActivate, PlanServiceRetire, PlanServiceFinalize;
    assert tenants[i] in tenants;
    match q.operation {
      case TeamUpdate => TeamUpdateKeepsTo(tenants, i, q);
      case TeamDelete => TeamKeepsTo(tenants, i, q);
      case TeamFinalize => TeamKeepsTo(tenants, i, q);
      case ServiceActivate => ActivateKeepsTo(repo, tenants, i, q);
      case ServiceRetire => LeavingKeepsTo(repo, tenants, i, q);
      case ServiceFinalize => LeavingKeepsTo(repo, tenants, i, q);
      case _ => EntryKeepsTo(repo, tenants, i, q);
    }
  }

  lemma TeamUpdateKeepsTo(tenants: seq<Tenant>, i: nat, q: Request)
    requires i < |tenants| && q.operation.TeamUpdate?
    ensures forall a <- PlanTeamUpdate(tenants, i, q).actions :: KeepsTo(tenants, q, a)
  {
    hide TeamFile, Generates, Normalize;
  }
}
