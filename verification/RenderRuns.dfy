/** Sequences of operations, each rendered from the repository the last one left. */
module RenderRuns {
  import opened Catalog
  import opened CatalogFacts
  import opened ChangePlan
  import opened ChangeSets
  import opened OverlayFacts
  import opened RenderSafety
  import opened RenderAccounting
  import opened ServiceAccounting
  import opened CatalogPreserved
  import opened OperationSoundness
  import opened ServiceSoundness

  /** What four operations need beyond what they check: a scaffolded database and
      activated components whose names nobody else uses, and no reference left to
      a database that goes. */
  ghost predicate GapFree(tenants: seq<Tenant>, q: Request) {
    var i := Index(tenants, TenantName, Target(q));
    match q.operation
    case ServiceScaffold => !(q.p.withDatabase && AnyDatabase(tenants, q.p.name))
    case ServiceActivate =>
      i >= 0 ==>
        var j := Index(tenants[i].services, ServiceName, q.p.name);
        j >= 0 ==> ComponentsFresh(tenants, i, tenants[i].services[j].components)
    case DatabaseFinalize => i >= 0 ==> Unreferenced(tenants[i], q.p.name)
    case ServiceFinalize =>
      i >= 0 ==>
        var j := Index(tenants[i].services, ServiceName, q.p.name);
        j >= 0 ==> tenants[i].services[j].ownsTeam || OwnedUnreferenced(tenants[i], tenants[i].services[j])
    case _ => true
  }

  // ---------------------------------------------------------------- every operation accounts

  lemma Accounting(repo: Repository, tenants: seq<Tenant>, q: Request)
    requires Valid(repo.Keys, tenants) && RequestOk(q) && Execute(repo, PlanOf(repo, tenants, q).actions).Ok? && GapFree(tenants, q)
    ensures Accounted(repo, tenants, PlanOf(repo, tenants, q), q)
  {
    hide Execute, Valid, UniqueNames, AllNames, RequestOk, Index, Accounted, Derived, Separate, PlanTeamCreate, PlanServiceScaffold, PlanIn, Shape, AnyDatabase, AnyService;
    ValidHasShape(repo.Keys, tenants);
    UniqueIsSeparate(tenants);
    if q.operation.TeamCreate? {
      TeamCreateAccounted(repo, tenants, q);
    } else if q.operation.ServiceScaffold? {
      ServiceScaffoldAccounted(repo, tenants, q);
    } else {
      Refusals(repo, tenants, NotFound, q);
      Refusals(repo, tenants, Conflict, q);
      AccountingIn(repo, tenants, Index(tenants, TenantName, Target(q)), q);
    }
  }

  lemma AccountingIn(repo: Repository, tenants: seq<Tenant>, i: nat, q: Request)
    requires Separate(tenants) && Derived(tenants) && RequestOk(q) && i < |tenants| && Index(tenants, TenantName, Target(q)) == i
    requires !q.operation.TeamCreate? && !q.operation.ServiceScaffold? && (AllowsRetiring(q.operation) || tenants[i].lifecycle.Active?)
    requires Execute(repo, PlanIn(repo, tenants, i, q).actions).Ok? && GapFree(tenants, q)
    ensures Accounted(repo, tenants, PlanIn(repo, tenants, i, q), q)
  {
    hide Execute, Index, Accounted, Derived, Separate, ValidName, IsUuid, OwnersOk, PlanTeamUpdate, PlanTeamDelete, PlanTeamFinalize, PlanAppCreate,
         PlanAppUpdate, PlanAppDelete, PlanAppFinalize, PlanDatabaseCreate, PlanDatabaseUpdate, PlanDatabaseDelete, PlanDatabaseFinalize,
         PlanServiceActivate, PlanServiceRetire, PlanServiceFinalize, ComponentsFresh, Unreferenced, OwnedUnreferenced;
    match q.operation {
      case TeamUpdate => TeamUpdateAccounted(repo, tenants, i, q);
      case TeamDelete => TeamDeleteAccounted(repo, tenants, i, q);
      case TeamFinalize => TeamFinalizeAccounted(repo, tenants, i, q);
      case AppCreate => EntryPlans(repo, tenants, i, q);
      case AppUpdate => EntryPlans(repo, tenants, i, q);
      case AppDelete => EntryPlans(repo, tenants, i, q);
      case AppFinalize => EntryPlans(repo, tenants, i, q);
      case ServiceActivate => ServiceActivateAccounted(repo, tenants, i, q);
      case ServiceRetire => ServiceRetireAccounted(repo, tenants, i, q);
      case ServiceFinalize => ServiceFinalizeAccounted(repo, tenants, i, q);
      case _ => DatabasePlans(repo, tenants, i, q);
    }
  }

  // ---------------------------------------------------------------- every operation keeps the catalog valid

  lemma Soundness(repo: Repository, tenants: seq<Tenant>, q: Request)
    requires Valid(repo.Keys, tenants) && RequestOk(q) && AllWrites(PlanOf(repo, tenants, q).actions) && GapFree(tenants, q)
    ensures Sound(tenants, PlanOf(repo, tenants, q))
  {
    hide Valid, UniqueNames, AllNames, RequestOk, Index, Sound, Derived, Separate, PlanTeamCreate, PlanServiceScaffold, PlanIn, Shape, AnyDatabase;
    ValidHasShape(repo.Keys, tenants);
    if q.operation.TeamCreate? {
      FirstWrites(PlanTeamCreate(tenants, q).actions);
      TeamCreateActions(tenants, q);
      TeamCreateSound(tenants, q);
    } else if q.operation.ServiceScaffold? {
      ServiceScaffoldSound(tenants, q);
    } else {
      RefusalFails(tenants, NotFound);
      RefusalFails(tenants, Conflict);
      SoundnessIn(repo, tenants, Index(tenants, TenantName, Target(q)), q);
    }
  }

  lemma TeamCreateActions(tenants: seq<Tenant>, q: Request)
    ensures PlanTeamCreate(tenants, q).actions != []
  {
    hide Index;
  }

  lemma FirstWrites(actions: seq<Action>)
    requires AllWrites(actions)
    ensures actions != [] ==> !actions[0].Fail?
  {
    assert actions != [] ==> actions[0] in actions;
  }

  lemma SoundnessIn(repo: Repository, tenants: seq<Tenant>, i: nat, q: Request)
    requires Prepared(tenants, i, q) && Derived(tenants) && Index(tenants, TenantName, Target(q)) == i
    requires !q.operation.TeamCreate? && !q.operation.ServiceScaffold?
    requires AllWrites(PlanIn(repo, tenants, i, q).actions) && GapFree(tenants, q)
    ensures Sound(tenants, PlanIn(repo, tenants, i, q))
  {
    hide Index, Sound, Derived, Prepared, PlanTeamUpdate, PlanTeamDelete, PlanServiceActivate, PlanServiceRetire, PlanServiceFinalize,
         ComponentsFresh, Unreferenced, OwnedUnreferenced, PlanTeamFinalize, PlanAppCreate, PlanAppUpdate, PlanAppDelete, PlanAppFinalize,
         PlanDatabaseCreate, PlanDatabaseUpdate, PlanDatabaseDelete, PlanDatabaseFinalize;
    FirstWrites(PlanIn(repo, tenants, i, q).actions);
    if !q.operation.ServiceRetire? {
      SomeActions(repo, tenants, i, q);
    }
    match q.operation {
      case TeamUpdate => TeamUpdateSound(tenants, i, q);
      case TeamDelete => TeamDeleteSound(tenants, i, q);
      case TeamFinalize => TeamFinalizeSound(tenants, i, q);
      case AppCreate => AppCreateSound(tenants, i, q);
      case AppUpdate => AppUpdateSound(tenants, i, q);
      case AppDelete => AppDeleteSound(tenants, i, q);
      case AppFinalize => AppFinalizeSound(tenants, i, q);
      case DatabaseCreate => DatabaseCreateSound(tenants, i, q);
      case DatabaseRestore => DatabaseCreateSound(tenants, i, q);
      case DatabaseUpdate => DatabaseUpdateSound(repo, tenants, i, q);
      case DatabaseDelete => DatabaseDeleteSound(tenants, i, q);
      case DatabaseFinalize => DatabaseFinalizeSound(tenants, i, q);
      case ServiceActivate => ServiceActivateSound(tenants, i, q);
      case ServiceRetire => ServiceRetireSound(tenants, i, q);
      case ServiceFinalize => ServiceFinalizeSound(repo, tenants, i, q);
    }
  }

  /** A plan about entries always has a first action. */
  lemma SomeActions(repo: Repository, tenants: seq<Tenant>, i: nat, q: Request)
    requires i < |tenants| && !q.operation.TeamCreate? && !q.operation.ServiceScaffold? && !q.operation.ServiceRetire?
    ensures PlanIn(repo, tenants, i, q).actions != []
  {
    hide Index, SortBy, Without, ComponentActions, WithComponents, DropNamed, UpdatedDatabase, AnyApplication, AnyDatabase, DatabaseActive,
         DatabaseInUse, Approvals, Drops, SourceDrops, FinalizeService, OwnedDatabase, RetireTenant;
  }

  lemma BrokenReference(paths: set<Path>, tenants: seq<Tenant>, t: Tenant, ref: string)
    requires t in tenants && ref != "" && !HasEntry(t.databases, ref)
    requires (exists a <- t.applications :: a.databaseRef == ref) || exists s <- t.services :: s.databaseRef == ref
    ensures !Valid(paths, tenants)
  {
    hide UniqueNames, AllNames, ValidName, LifecycleOk, HasEntry, TeamOk, DatabaseOk, LeafExists, SourceExists;
    assert !TenantOk(paths, t) by {
      if exists a <- t.applications :: a.databaseRef == ref {
        var a :| a in t.applications && a.databaseRef == ref;
        assert !ApplicationOk(paths, t.databases, a);
      } else {
        var s :| s in t.services && s.databaseRef == ref;
        assert !ServiceOk(paths, t.databases, s);
      }
    }
  }

  lemma NoneWithout(entries: seq<Entry>, name: string)
    ensures !HasEntry(Without(entries, EntryName, [name]), name)
  {
    hide Without;
  }

  /** A gap shows: the catalog it leaves is not valid. */
  lemma GapsShow(repo: Repository, tenants: seq<Tenant>, q: Request, paths: set<Path>)
    requires Valid(repo.Keys, tenants) && RequestOk(q) && AllWrites(PlanOf(repo, tenants, q).actions) && !GapFree(tenants, q)
    ensures !Valid(paths, PlanOf(repo, tenants, q).tenants)
  {
    hide UniqueNames, AllNames, RequestOk, Index, Derived, PlanServiceScaffold, PlanServiceActivate, PlanServiceFinalize, PlanDatabaseFinalize,
         Shape, AnyDatabase, ComponentsFresh, Unreferenced, OwnedUnreferenced, TenantOk, Sound;
    ValidHasShape(repo.Keys, tenants);
    if q.operation.ServiceScaffold? {
      ServiceScaffoldSound(tenants, q);
    } else {
      RefusalFails(tenants, NotFound);
      RefusalFails(tenants, Conflict);
      var i := Index(tenants, TenantName, Target(q));
      if q.operation.ServiceActivate? {
        ServiceActivateSound(tenants, i, q);
      } else if q.operation.DatabaseFinalize? {
        DatabaseGapShows(tenants, i, q, paths);
      } else {
        ServiceGapShows(tenants, i, q, paths);
      }
    }
  }

  lemma DatabaseGapShows(tenants: seq<Tenant>, i: nat, q: Request, paths: set<Path>)
    requires Prepared(tenants, i, q) && AllWrites(PlanDatabaseFinalize(tenants, i, q).actions) && !Unreferenced(tenants[i], q.p.name)
    ensures !Valid(paths, PlanDatabaseFinalize(tenants, i, q).tenants)
  {
    hide UniqueNames, AllNames, Index, Without, HasEntry, Valid, Shape;
    RefusalFails(tenants, NotFound);
    RefusalFails(tenants, Conflict);
    var t := tenants[i].(databases := Without(tenants[i].databases, EntryName, [q.p.name]));
    var after := PlanDatabaseFinalize(tenants, i, q).tenants;
    assert after[i] == t && t in after;
    NoneWithout(tenants[i].databases, q.p.name);
    BrokenReference(paths, after, t, q.p.name);
  }

  lemma ServiceGapShows(tenants: seq<Tenant>, i: nat, q: Request, paths: set<Path>)
    requires Prepared(tenants, i, q) && AllWrites(PlanServiceFinalize(tenants, i, q).actions)
    requires var j := Index(tenants[i].services, ServiceName, q.p.name);
             j >= 0 && !tenants[i].services[j].ownsTeam && !OwnedUnreferenced(tenants[i], tenants[i].services[j])
    ensures !Valid(paths, PlanServiceFinalize(tenants, i, q).tenants)
  {
    hide UniqueNames, AllNames, Index, Without, HasEntry, Valid, Shape, RequestOk, DropNamed, OwnedDatabase;
    RefusalFails(tenants, Conflict);
    var t, j := tenants[i], Index(tenants[i].services, ServiceName, q.p.name);
    var s := t.services[j];
    var r := FinalizeService(t, s);
    var after := PlanServiceFinalize(tenants, i, q).tenants;
    assert after[i] == r && r in after;
    NoneWithout(t.databases, s.databaseRef);
    if exists a <- t.applications :: a.name !in s.components && a.databaseRef == s.databaseRef {
      var a :| a in t.applications && a.name !in s.components && a.databaseRef == s.databaseRef;
      assert a in r.applications;
    } else {
      var x :| x in t.services && x.name != s.name && x.databaseRef == s.databaseRef;
      assert x in r.services;
    }
    BrokenReference(paths, after, r, s.databaseRef);
  }

  /** From a valid, consistent repository, an operation that goes through leaves a
      valid catalog if and only if none of the four gaps is hit; it then leaves a consistent one. */
  lemma OperationIsSafe(repo: Repository, tenants: seq<Tenant>, q: Request)
    requires Valid(repo.Keys, tenants) && Consistent(repo, tenants) && RequestOk(q)
    requires Execute(repo, PlanOf(repo, tenants, q).actions).Ok?
    ensures var plan := PlanOf(repo, tenants, q);
            && (GapFree(tenants, q) <==> Valid(FilesAfter(repo, plan).Keys, plan.tenants))
            && (GapFree(tenants, q) ==> Consistent(FilesAfter(repo, plan), plan.tenants))
  {
    hide Execute, Valid, Consistent, RequestOk, PlanOf, FilesAfter, GapFree, Sound, Accounted;
    var plan := PlanOf(repo, tenants, q);
    SucceededWrites(repo, plan.actions);
    if GapFree(tenants, q) {
      Accounting(repo, tenants, q);
      Soundness(repo, tenants, q);
      SoundIsValid(repo, tenants, plan, q);
    } else {
      GapsShow(repo, tenants, q, FilesAfter(repo, plan).Keys);
    }
  }

  // ---------------------------------------------------------------- runs

  /** A repository whose catalog is valid and agrees with the manifests. */
  ghost predicate Healthy(repo: Repository) { Loads(repo) && Consistent(repo, repo[CatalogPath].tenants) }

  function TenantsOf(repo: Repository): seq<Tenant>
    requires Loads(repo)
  {
    repo[CatalogPath].tenants
  }

  /** One request, rendered and applied. */
  ghost predicate Step(repo: Repository, q: Request, next: Repository) {
    Loads(repo) && Rendered(repo, q).Ok? && GapFree(TenantsOf(repo), q) && next == View(repo, Rendered(repo, q).value)
  }

  lemma StepIsPlan(repo: Repository, q: Request, next: Repository)
    requires Step(repo, q, next)
    ensures RequestOk(q) && Execute(repo, PlanOf(repo, TenantsOf(repo), q).actions).Ok?
    ensures next == FilesAfter(repo, PlanOf(repo, TenantsOf(repo), q))
  {
    hide Execute, Valid, RequestOk, PlanOf, View, SetChange, GapFree;
  }

  lemma StepIsHealthy(repo: Repository, q: Request, next: Repository)
    requires Healthy(repo) && Step(repo, q, next)
    ensures Healthy(next) && TenantsOf(next) == PlanOf(repo, TenantsOf(repo), q).tenants
  {
    hide Execute, Valid, Consistent, RequestOk, PlanOf, FilesAfter, GapFree, Rendered, View;
    var tenants := TenantsOf(repo);
    StepIsPlan(repo, q, next);
    OperationIsSafe(repo, tenants, q);
    CatalogAfter(repo, PlanOf(repo, tenants, q));
  }

  /** Where every catalog starts. */
  lemma EmptyIsHealthy()
    ensures Healthy(map[CatalogPath := CatalogFile([])])
  {
    assert forall l :: !CatalogLists([], l);
  }

  /** Consecutive repositories and the requests between them. */
  ghost predicate Run(repos: seq<Repository>, requests: seq<Request>) {
    |repos| == |requests| + 1 && forall k :: 0 <= k < |requests| ==> Step(repos[k], requests[k], repos[k + 1])
  }

  /** Over every run, catalog and manifests agree and the catalog is valid. */
  lemma {:induction false} RunsStayHealthy(repos: seq<Repository>, requests: seq<Request>, k: nat)
    requires Run(repos, requests) && Healthy(repos[0]) && k < |repos|
    ensures Healthy(repos[k])
    decreases k
  {
    hide Healthy, Step;
    if k > 0 {
      RunsStayHealthy(repos, requests, k - 1);
      assert Step(repos[k - 1], requests[k - 1], repos[k]);
      StepIsHealthy(repos[k - 1], requests[k - 1], repos[k]);
    }
  }

  predicate ListsDatabase(repo: Repository, name: string) { Loads(repo) && HasLeaf(TenantsOf(repo), DatabaseLeaf(name)) }

  lemma StepGrows(repo: Repository, q: Request, next: Repository, name: string)
    requires Healthy(repo) && Step(repo, q, next) && ListsDatabase(repo, name) && ListsDatabase(next, name)
    ensures var p := Manifest(DatabaseLeaf(name)); p in repo && p in next && Stored(repo[p]) && Grows(repo[p], next[p])
  {
    hide Execute, Valid, Consistent, RequestOk, PlanOf, FilesAfter, GapFree, Rendered, View, HasLeaf, Accounted, Stored, Grows;
    var tenants := TenantsOf(repo);
    StepIsPlan(repo, q, next);
    StepIsHealthy(repo, q, next);
    Accounting(repo, tenants, q);
    StorageOnlyGrows(repo, tenants, PlanOf(repo, tenants, q), q, name);
  }

  lemma GrowsTrans(a: File, b: File, c: File)
    requires Stored(a) && Grows(a, b) && Grows(b, c)
    ensures Grows(a, c)
  {
  }

  /** While a database is listed, its storage never shrinks and its class and recovery stay. */
  lemma {:induction false} StorageGrowsOverRuns(repos: seq<Repository>, requests: seq<Request>, i: nat, k: nat, name: string)
    requires Run(repos, requests) && Healthy(repos[0]) && i <= k < |repos| && forall j :: i <= j <= k ==> ListsDatabase(repos[j], name)
    ensures var p := Manifest(DatabaseLeaf(name)); p in repos[i] && p in repos[k] && Stored(repos[i][p]) && Grows(repos[i][p], repos[k][p])
    decreases k - i
  {
    hide Healthy, Step, ListsDatabase, Stored, Grows;
    var p := Manifest(DatabaseLeaf(name));
    RunsStayHealthy(repos, requests, i);
    if i < k {
      assert Step(repos[k - 1], requests[k - 1], repos[k]);
      RunsStayHealthy(repos, requests, k - 1);
      StepGrows(repos[k - 1], requests[k - 1], repos[k], name);
      StorageGrowsOverRuns(repos, requests, i, k - 1, name);
      GrowsTrans(repos[i][p], repos[k - 1][p], repos[k][p]);
    } else {
      ListedIsStored(repos[i], name);
    }
  }

  lemma ListedIsStored(repo: Repository, name: string)
    requires Healthy(repo) && ListsDatabase(repo, name)
    ensures var p := Manifest(DatabaseLeaf(name)); p in repo && Stored(repo[p]) && Grows(repo[p], repo[p])
  {
    hide HasLeaf, CatalogLists, Valid;
    var l := ListingOf(TenantsOf(repo), DatabaseLeaf(name));
  }

  // ---------------------------------------------------------------- retired teams

  /** The team and everything in it retires under one request. */
  predicate AllRetiring(t: Tenant, id: string) {
    && t.lifecycle.Retiring? && t.request == id
    && (forall a <- t.applications :: a.lifecycle.Retiring? && a.request == id)
    && (forall d <- t.databases :: d.lifecycle.Retiring? && d.request == id)
    && (forall s <- t.services :: s.lifecycle.Retiring? && s.request == id)
  }

  /** What is left of a tenant: the same team, and only entries it had. */
  predicate Shrunk(before: Tenant, after: Tenant) {
    && after.name == before.name && after.lifecycle == before.lifecycle && after.request == before.request
    && (forall a <- after.applications :: a in before.applications) && (forall d <- after.databases :: d in before.databases)
    && (forall s <- after.services :: s in before.services)
  }

  lemma DeletionRetiresAll(tenants: seq<Tenant>, i: nat, q: Request)
    requires i < |tenants|
    ensures AllRetiring(PlanTeamDelete(tenants, i, q).tenants[i], q.id)
  {
  }

  /** An operation leaves every tenant but its target as it was. */
  lemma OnlyTheTargetChanges(repo: Repository, tenants: seq<Tenant>, q: Request, t: Tenant)
    requires UniqueNames(AllNames(tenants)) && t in PlanOf(repo, tenants, q).tenants && t.name != Target(q)
    ensures t in tenants
  {
    hide UniqueNames, AllNames, Index, SortBy, Without, ComponentActions, WithComponents, DropNamed, UpdatedDatabase, AnyApplication, AnyDatabase, AnyService,
         DatabaseActive, DatabaseInUse, Approvals, Drops, SourceDrops, OwnedDatabase, PlanTeamCreate, PlanServiceScaffold, RetireNamed, ApproveNamed;
    if q.operation.TeamCreate? {
      CreateChangesTarget(tenants, q, t);
    } else if q.operation.ServiceScaffold? {
      ScaffoldChangesTarget(tenants, q, t);
    } else {
      var i := Index(tenants, TenantName, Target(q));
      if i >= 0 && (AllowsRetiring(q.operation) || tenants[i].lifecycle.Active?) {
        InPlaceChangesTarget(repo, tenants, i, q, t);
      }
    }
  }

  lemma CreateChangesTarget(tenants: seq<Tenant>, q: Request, t: Tenant)
    requires t in PlanTeamCreate(tenants, q).tenants && t.name != q.p.name
    ensures t in tenants
  {
    hide Index, SortBy;
  }

  lemma ScaffoldInChangesTarget(tenants: seq<Tenant>, i: nat, p: Parameters, before: seq<Action>, t: Tenant)
    requires i < |tenants| && t in PlanScaffoldIn(tenants, i, p, before).tenants && t.name != tenants[i].name
    ensures exists j :: 0 <= j < |tenants| && j != i && tenants[j] == t
  {
    hide SortBy, DatabaseActive, ScaffoldActions, NewService;
    var after := PlanScaffoldIn(tenants, i, p, before).tenants;
    var j :| 0 <= j < |after| && after[j] == t;
  }

  lemma ScaffoldChangesTarget(tenants: seq<Tenant>, q: Request, t: Tenant)
    requires UniqueNames(AllNames(tenants)) && t in PlanServiceScaffold(tenants, q).tenants && t.name != q.p.team
    ensures t in tenants
  {
    hide UniqueNames, AllNames, Index, SortBy, AnyService, PlanScaffoldIn, Normalize, TeamFile;
    var p := q.p;
    var i := Index(tenants, TenantName, p.team);
    if AnyService(tenants, p.name) {
    } else if i >= 0 {
      if !p.createTeam {
        ScaffoldInChangesTarget(tenants, i, p, [], t);
      }
    } else if p.createTeam && p.team == p.name {
      var team := NewTenant(p.team, ServiceTeam(p).owners);
      var k := NewTeamAt(tenants, team);
      ScaffoldInChangesTarget(SortBy(tenants + [team], TenantName), k, p, [WriteLeaf(TeamLeaf(p.team), TeamFile(p.team, ServiceTeam(p)))], t);
    }
  }

  lemma InPlaceChangesTarget(repo: Repository, tenants: seq<Tenant>, i: nat, q: Request, t: Tenant)
    requires i < |tenants| && tenants[i].name == Target(q) && !q.operation.TeamCreate? && !q.operation.ServiceScaffold?
    requires t in PlanIn(repo, tenants, i, q).tenants && t.name != Target(q)
    ensures t in tenants
  {
    hide Index, SortBy, Without, ComponentActions, WithComponents, DropNamed, UpdatedDatabase, AnyApplication, AnyDatabase,
         DatabaseActive, DatabaseInUse, Approvals, Drops, SourceDrops, OwnedDatabase, RetireNamed, ApproveNamed;
  }

  /** Once a team is retiring, an operation removes it or only removes entries from it. */
  lemma RetiringTeamOnlyShrinks(repo: Repository, tenants: seq<Tenant>, q: Request, was: Tenant, now: Tenant)
    requires UniqueNames(AllNames(tenants)) && Execute(repo, PlanOf(repo, tenants, q).actions).Ok?
    requires was in tenants && was.lifecycle.Retiring? && now in PlanOf(repo, tenants, q).tenants && now.name == was.name
    ensures Shrunk(was, now)
  {
    hide UniqueNames, AllNames, Index, Execute, PlanIn, PlanTeamCreate, PlanServiceScaffold, Separate, Shrunk;
    UniqueIsSeparate(tenants);
    if was.name != Target(q) {
      OnlyTheTargetChanges(repo, tenants, q, now);
      OneTenantOfName(tenants, was, now);
      assert Shrunk(was, was) by { ShrunkRefl(was); }
    } else {
      var i := Index(tenants, TenantName, Target(q));
      var k :| 0 <= k < |tenants| && tenants[k] == was;
      assert TenantName(tenants[k]) == Target(q) && i >= 0;
      OneTenantOfName(tenants, tenants[i], was);
      Refusals(repo, tenants, Conflict, q);
      SucceededWrites(repo, PlanOf(repo, tenants, q).actions);
      RetiringTargetShrinks(repo, tenants, i, q, now);
    }
  }

  lemma OneTenantOfName(tenants: seq<Tenant>, a: Tenant, b: Tenant)
    requires Separate(tenants) && a in tenants && b in tenants && a.name == b.name
    ensures a == b
  {
    hide DistinctBy, TenantHasService;
    var i :| 0 <= i < |tenants| && tenants[i] == a;
    var k :| 0 <= k < |tenants| && tenants[k] == b;
    assert TenantHas(tenants[i], TeamLeaf(a.name)) && TenantHas(tenants[k], TeamLeaf(a.name));
  }

  lemma ShrunkRefl(t: Tenant)
    ensures Shrunk(t, t)
  {
  }

  lemma RetiringTargetShrinks(repo: Repository, tenants: seq<Tenant>, i: nat, q: Request, now: Tenant)
    requires i < |tenants| && Index(tenants, TenantName, Target(q)) == i && tenants[i].lifecycle.Retiring? && Separate(tenants)
    requires AllWrites(PlanOf(repo, tenants, q).actions) && now in PlanOf(repo, tenants, q).tenants && now.name == tenants[i].name
    ensures Shrunk(tenants[i], now)
  {
    hide Index, Separate, Without, AnyService, Shrunk, PlanServiceFinalize, PlanTeamFinalize, PlanTeamCreate, PlanServiceScaffold;
    RefusalFails(tenants, Conflict);
    ShrunkRefl(tenants[i]);
    if q.operation.ServiceScaffold? {
      RetiringRefusesScaffold(tenants, i, q);
    } else if q.operation.TeamCreate? {
      TakenNameRefused(tenants, q);
    }
    if q.operation.ServiceFinalize? {
      FinalizeShrinks(tenants, i, q, now);
    } else if q.operation.TeamFinalize? {
      FinalizeTeamRemoves(tenants, i, q, now);
    }
  }

  lemma RetiringRefusesScaffold(tenants: seq<Tenant>, i: nat, q: Request)
    requires i < |tenants| && Index(tenants, TenantName, q.p.team) == i && tenants[i].lifecycle.Retiring?
    ensures !AllWrites(PlanServiceScaffold(tenants, q).actions)
  {
    hide Index, AnyService, DatabaseActive, ScaffoldActions, WithService;
    RefusalFails(tenants, Conflict);
    FailsLast([]);
  }

  lemma TakenNameRefused(tenants: seq<Tenant>, q: Request)
    requires Index(tenants, TenantName, q.p.name) >= 0
    ensures !AllWrites(PlanTeamCreate(tenants, q).actions)
  {
    hide Index;
    RefusalFails(tenants, Conflict);
  }

  lemma FinalizeTeamRemoves(tenants: seq<Tenant>, i: nat, q: Request, now: Tenant)
    requires i < |tenants| && AllWrites(PlanTeamFinalize(tenants, i, q).actions) && tenants[i].name == q.p.name
    requires now in PlanTeamFinalize(tenants, i, q).tenants
    ensures now.name != tenants[i].name
  {
    hide Without, Drops, SourceDrops;
    RefusalFails(tenants, Conflict);
  }

  lemma FinalizeShrinks(tenants: seq<Tenant>, i: nat, q: Request, now: Tenant)
    requires i < |tenants| && AllWrites(PlanServiceFinalize(tenants, i, q).actions) && Separate(tenants)
    requires now in PlanServiceFinalize(tenants, i, q).tenants && now.name == tenants[i].name
    ensures Shrunk(tenants[i], now)
  {
    hide Index, Separate, Without, DropNamed, OwnedDatabase;
    RefusalFails(tenants, Conflict);
    RefusalFails(tenants, NotFound);
    var t, j := tenants[i], Index(tenants[i].services, ServiceName, q.p.name);
    if !t.services[j].ownsTeam {
      var after := PlanServiceFinalize(tenants, i, q).tenants;
      var k :| 0 <= k < |after| && after[k] == now;
      if k != i {
        assert tenants[k] in tenants && tenants[i] in tenants;
        OneTenantOfName(tenants, tenants[k], tenants[i]);
      }
    }
  }

  lemma ShrunkStaysRetiring(before: Tenant, after: Tenant, id: string)
    requires AllRetiring(before, id) && Shrunk(before, after)
    ensures AllRetiring(after, id)
  {
  }

  lemma ShrunkTrans(a: Tenant, b: Tenant, c: Tenant)
    requires Shrunk(a, b) && Shrunk(b, c)
    ensures Shrunk(a, c)
  {
  }

  ghost predicate HasTeam(repo: Repository, t: Tenant) { Loads(repo) && t in TenantsOf(repo) }

  /** After a team was deleted under a request, until it is removed all of it stays
      retiring under that request and nothing is added. */
  lemma {:induction false} RetiredTeamsStayRetired(repos: seq<Repository>, requests: seq<Request>, i: nat, k: nat, was: Tenant, now: Tenant, id: string)
    requires Run(repos, requests) && Healthy(repos[0]) && i <= k < |repos|
    requires HasTeam(repos[i], was) && AllRetiring(was, id) && HasTeam(repos[k], now) && now.name == was.name
    requires forall j :: i <= j <= k ==> exists t :: HasTeam(repos[j], t) && t.name == was.name
    ensures Shrunk(was, now) && AllRetiring(now, id)
    decreases k - i
  {
    hide Healthy, Step, Shrunk, AllRetiring, HasTeam;
    RunsStayHealthy(repos, requests, k);
    if i == k {
      SameTeamIn(repos[i], was, now);
      ShrunkRefl(was);
    } else {
      RunsStayHealthy(repos, requests, k - 1);
      assert Step(repos[k - 1], requests[k - 1], repos[k]);
      var middle :| HasTeam(repos[k - 1], middle) && middle.name == was.name;
      RetiredTeamsStayRetired(repos, requests, i, k - 1, was, middle, id);
      StepShrinks(repos[k - 1], requests[k - 1], repos[k], middle, now, id);
      ShrunkTrans(was, middle, now);
      ShrunkStaysRetiring(middle, now, id);
    }
  }

  lemma SameTeamIn(repo: Repository, a: Tenant, b: Tenant)
    requires Healthy(repo) && HasTeam(repo, a) && HasTeam(repo, b) && a.name == b.name
    ensures a == b
  {
    hide Consistent, UniqueNames, AllNames, TenantOk;
    UniqueIsSeparate(TenantsOf(repo));
    OneTenantOfName(TenantsOf(repo), a, b);
  }

  lemma StepShrinks(repo: Repository, q: Request, next: Repository, was: Tenant, now: Tenant, id: string)
    requires Healthy(repo) && Step(repo, q, next) && HasTeam(repo, was) && AllRetiring(was, id) && HasTeam(next, now) && now.name == was.name
    ensures Shrunk(was, now)
  {
    hide Execute, Consistent, RequestOk, PlanOf, FilesAfter, GapFree, Rendered, View, UniqueNames, AllNames, TenantOk, Shrunk;
    StepIsPlan(repo, q, next);
    StepIsHealthy(repo, q, next);
    RetiringTeamOnlyShrinks(repo, TenantsOf(repo), q, was, now);
  }

  /** No run returns a retiring leaf to active while it stays in the catalog. */
  lemma StepKeepsRetirement(repo: Repository, q: Request, next: Repository, was: Listed, now: Listed)
    requires Healthy(repo) && Step(repo, q, next) && CatalogLists(TenantsOf(repo), was) && was.lifecycle.Retiring?
    requires Loads(next) && CatalogLists(TenantsOf(next), now) && now.leaf == was.leaf
    ensures now.lifecycle.Retiring? && (now.request == was.request || now.request == q.id)
  {
    hide Execute, Consistent, RequestOk, PlanOf, FilesAfter, GapFree, Rendered, View, UniqueNames, AllNames, TenantOk, Accounted, Separate, CatalogLists;
    StepIsPlan(repo, q, next);
    StepIsHealthy(repo, q, next);
    Accounting(repo, TenantsOf(repo), q);
    UniqueIsSeparate(TenantsOf(repo));
    RetirementIsFinal(repo, TenantsOf(repo), PlanOf(repo, TenantsOf(repo), q), q, was, now);
  }
}
