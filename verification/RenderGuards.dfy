/** Exactly when a request goes through, and what it is refused with: stated on the
    catalog and the files alone. */
module RenderGuards {
  import opened Wrappers
  import opened Catalog
  import opened CatalogFacts
  import opened ChangePlan
  import opened ChangeSets
  import opened OverlayFacts
  import opened RenderSafety
  import opened RenderAccounting
  import opened ServiceAccounting
  import opened CatalogPreserved
  import opened OperationSoundness
  import opened ServiceSoundness
  import opened RenderRuns
  import opened ManifestFields
  import opened ServiceLifecycle
  import opened ServiceInTeam

  // ---------------------------------------------------------------- the catalog's objections

  ghost predicate ActiveIn(entries: seq<Entry>, name: string) { exists e <- entries :: e.name == name && e.lifecycle.Active? }
  ghost predicate RetiresFor(lifecycle: Lifecycle, request: string, q: Request) { lifecycle.Retiring? && request == q.p.deletionRequest }
  ghost predicate EntryRetires(entries: seq<Entry>, q: Request) { exists e <- entries :: e.name == q.p.name && RetiresFor(e.lifecycle, e.request, q) }
  ghost predicate DanglingRef(t: Tenant, ref: string) { |ref| > 0 && !ActiveIn(t.databases, ref) }

  /** An entry that is not listed is not found; one that is not active is in conflict. */
  ghost function Inactive(entries: seq<Entry>, name: string): Option<ExitCode> {
    if !HasEntry(entries, name) then Some(NotFound) else if !ActiveIn(entries, name) then Some(Conflict) else None
  }

  ghost function NotRetiring(entries: seq<Entry>, q: Request): Option<ExitCode> {
    if !HasEntry(entries, q.p.name) then Some(NotFound) else if !EntryRetires(entries, q) then Some(Conflict) else None
  }

  ghost predicate OffersService(t: Tenant, name: string) { exists s <- t.services :: s.name == name }

  /** Some component is listed and not active. */
  ghost predicate ComponentRetires(t: Tenant, s: Service) { exists e <- t.applications :: e.name in s.components && !e.lifecycle.Active? }

  /** What the team objects to. */
  ghost function TeamObjects(repo: Repository, t: Tenant, q: Request): Option<ExitCode>
    requires Loads(repo)
  {
    var p := q.p;
    match q.operation
    case TeamUpdate => None
    case TeamDelete => None
    case TeamFinalize => if RetiresFor(t.lifecycle, t.request, q) then None else Some(Conflict)
    case AppCreate =>
      if exists u <- TenantsOf(repo) :: HasEntry(u.applications, p.name) then Some(Conflict)
      else if DanglingRef(t, p.databaseRef) then Some(NotFound) else None
    case AppUpdate =>
      if Inactive(t.applications, p.name).Some? then Inactive(t.applications, p.name)
      else if DanglingRef(t, p.databaseRef) then Some(NotFound) else None
    case AppDelete => Inactive(t.applications, p.name)
    case AppFinalize => NotRetiring(t.applications, q)
    case DatabaseUpdate =>
      if Inactive(t.databases, p.name).Some? then Inactive(t.databases, p.name)
      else if Shrinks(repo, p) then Some(Usage) else None
    case DatabaseDelete =>
      if exists a <- t.applications :: a.databaseRef == p.name && a.lifecycle.Active? then Some(Conflict) else Inactive(t.databases, p.name)
    case DatabaseFinalize => NotRetiring(t.databases, q)
    case ServiceActivate =>
      if !OffersService(t, p.name) then Some(NotFound)
      else if exists s <- t.services :: s.name == p.name && (s.lifecycle.Retiring? || ComponentRetires(t, s)) then Some(Conflict) else None
    case ServiceRetire =>
      if !OffersService(t, p.name) then Some(NotFound)
      else if exists s <- t.services :: s.name == p.name && s.lifecycle.Retiring? then Some(Conflict) else None
    case ServiceFinalize =>
      if !OffersService(t, p.name) then Some(NotFound)
      else if !(exists s <- t.services :: s.name == p.name && RetiresFor(s.lifecycle, s.request, q)) then Some(Conflict) else None
    case _ => if exists u <- TenantsOf(repo) :: HasEntry(u.databases, p.name) then Some(Conflict) else None
  }

  /** The wanted storage is less than what the manifest has. */
  ghost predicate Shrinks(repo: Repository, p: Parameters) {
    var path := Manifest(DatabaseLeaf(p.name));
    path in repo && Stored(repo[path]) && (p.size.amount.None? || p.size.amount.value < repo[path].spec.storage.value.size.value.amount.value)
  }

  // ---------------------------------------------------------------- what the files must allow

  /** The directory holds the two generated files and nothing else. */
  ghost predicate Droppable(repo: Repository, leaf: Leaf) { Kustomization(leaf) in repo && forall path <- repo :: path.Extra? ==> path.leaf != leaf }

  ghost predicate GoldensThere(repo: Repository, template: Template) {
    template == GoApi || template == FullStack ==> Golden(false) in repo && Golden(true) in repo
  }

  /** The source directory holds exactly the generated files. */
  ghost predicate SourceDroppable(repo: Repository, s: Service) {
    GoldensThere(repo, s.template) && forall f: SourceFile :: Source(s.path, f) in repo <==> Generates(s.template, f)
  }

  /** Whether a service can be taken out of its team. */
  ghost predicate ServiceDroppable(repo: Repository, t: Tenant, s: Service, q: Request) {
    && (forall e <- t.applications :: e.name in s.components ==> RetiresFor(e.lifecycle, e.request, q) && Droppable(repo, AppLeaf(e.name)))
    && (forall d <- t.databases :: s.ownsDatabase && |s.databaseRef| > 0 && d.name == s.databaseRef ==>
          RetiresFor(d.lifecycle, d.request, q) && Droppable(repo, DatabaseLeaf(d.name)))
    && SourceDroppable(repo, s) && (s.ownsTeam ==> RetiresFor(t.lifecycle, t.request, q) && Droppable(repo, TeamLeaf(t.name)))
  }

  ghost predicate FilesAllow(repo: Repository, t: Tenant, q: Request) {
    match q.operation
    case TeamFinalize =>
      && Droppable(repo, TeamLeaf(t.name)) && (forall e <- t.applications :: Droppable(repo, AppLeaf(e.name)))
      && (forall d <- t.databases :: Droppable(repo, DatabaseLeaf(d.name))) && forall s <- t.services :: SourceDroppable(repo, s)
    case AppFinalize => Droppable(repo, AppLeaf(q.p.name))
    case DatabaseFinalize => Droppable(repo, DatabaseLeaf(q.p.name))
    case ServiceFinalize => forall s <- t.services :: s.name == q.p.name ==> ServiceDroppable(repo, t, s, q)
    case _ => true
  }

  // ---------------------------------------------------------------- plans and their execution

  lemma RefusedIs(repo: Repository, tenants: seq<Tenant>, code: ExitCode)
    ensures Execute(repo, Refuse(tenants, code).actions) == Err(code)
  {
    assert [Fail(code)][..0] == [];
  }

  lemma FailedIs(repo: Repository, before: seq<Action>, code: ExitCode)
    requires Clear(repo, before)
    ensures Execute(repo, before + [Fail(code)]) == Err(code)
  {
    hide Clear;
    ClearExecutes(repo, before);
    assert (before + [Fail(code)])[..|before|] == before;
  }

  lemma SucceedsIffClear(repo: Repository, actions: seq<Action>)
    ensures Execute(repo, actions).Ok? <==> Clear(repo, actions)
  {
    hide Execute, Blocked;
    if Execute(repo, actions).Ok? {
      forall a <- actions ensures Blocked(repo, a).None? {
        NoneBlocked(repo, actions, a);
      }
    } else if Clear(repo, actions) {
      ClearExecutes(repo, actions);
    }
  }

  /** The overlay of a request is that of its plan and the catalog. */
  lemma RenderedIs(repo: Repository, q: Request)
    requires Loads(repo) && RequestOk(q)
    ensures var plan := PlanOf(repo, TenantsOf(repo), q); var done := Execute(repo, plan.actions);
            && (done.Err? ==> Rendered(repo, q) == Err(done.error))
            && (done.Ok? && plan.tenants != TenantsOf(repo) ==> Rendered(repo, q).Ok?)
            && (done.Ok? && done.value != map[] ==> Rendered(repo, q).Ok?)
            && (done.Ok? && done.value == map[] && plan.tenants == TenantsOf(repo) ==> Rendered(repo, q) == Err(Conflict))
  {
    hide Execute, Valid, RequestOk, PlanOf;
    var plan := PlanOf(repo, TenantsOf(repo), q);
    var done := Execute(repo, plan.actions);
    if done.Ok? {
      var changes := done.value + SetChange(repo, CatalogPath, CatalogFile(plan.tenants));
      if plan.tenants != TenantsOf(repo) {
        assert CatalogPath in changes;
      } else {
        assert changes == done.value + map[];
        assert changes == done.value;
      }
    }
  }

  // ---------------------------------------------------------------- one operation at a time

  /** Operations that leave the catalog as it is when they change nothing. */
  ghost predicate Updates(o: Operation) { o.TeamUpdate? || o.AppUpdate? || o.DatabaseUpdate? || o.ServiceActivate? }

  /** The plan fails with the objection of the team, and else exactly when the files are in the way. */
  ghost predicate Guarded(repo: Repository, t: Tenant, q: Request, plan: Plan)
    requires Loads(repo)
  {
    var o := TeamObjects(repo, t, q);
    && (o.Some? ==> Execute(repo, plan.actions) == Err(o.value))
    && (o.None? ==> (Clear(repo, plan.actions) <==> FilesAllow(repo, t, q)) && (Updates(q.operation) || plan.tenants != TenantsOf(repo)))
  }

  lemma RefusalIsGuarded(repo: Repository, t: Tenant, q: Request, code: ExitCode)
    requires Loads(repo) && TeamObjects(repo, t, q) == Some(code)
    ensures Guarded(repo, t, q, Refuse(TenantsOf(repo), code))
  {
    hide Loads, TeamObjects, Execute;
    RefusedIs(repo, TenantsOf(repo), code);
  }

  lemma ClearOne(repo: Repository, a: Action)
    ensures Clear(repo, [a]) <==> Blocked(repo, a).None?
  {
    hide Blocked;
    assert [a][0] == a;
  }

  /** The one entry of a name. */
  lemma EntryAt(entries: seq<Entry>, name: string)
    requires DistinctBy(entries, EntryName)
    ensures var j := Index(entries, EntryName, name);
            && (j < 0 <==> !HasEntry(entries, name))
            && (j >= 0 ==> entries[j] in entries && entries[j].name == name && forall e <- entries :: e.name == name ==> e == entries[j])
  {
    hide Index;
    FoundBy(entries, EntryName, name);
    var j := Index(entries, EntryName, name);
    if HasEntry(entries, name) {
      var e :| e in entries && e.name == name;
      var k :| 0 <= k < |entries| && entries[k] == e;
      assert EntryName(entries[k]) == name;
    }
    if j >= 0 {
      assert EntryName(entries[j]) == name;
      forall e <- entries | e.name == name ensures e == entries[j] {
        var k :| 0 <= k < |entries| && entries[k] == e;
        assert EntryName(entries[k]) == EntryName(entries[j]);
      }
    }
  }

  lemma DatabaseActiveIs(t: Tenant, ref: string)
    requires DistinctBy(t.databases, EntryName)
    ensures DatabaseActive(t, ref) <==> ActiveIn(t.databases, ref)
  {
    hide Index, DistinctBy;
    EntryAt(t.databases, ref);
  }

  lemma LeafDroppable(repo: Repository, leaf: Leaf)
    requires Manifest(leaf) in repo && Allowed(Manifest(leaf))
    ensures Blocked(repo, DropLeaf(leaf)).None? <==> Droppable(repo, leaf)
  {
    hide ValidName;
    assert InLeaf(Manifest(leaf), leaf);
    if Droppable(repo, leaf) {
      assert OnlyGenerated(repo, leaf);
    }
    if OnlyGenerated(repo, leaf) {
      forall path <- repo | path.Extra? ensures path.leaf != leaf {
        assert !InLeaf(path, leaf);
      }
    }
  }

  /** A listed leaf has a manifest at an allowed path. */
  lemma ListedLeaf(repo: Repository, t: Tenant, leaf: Leaf)
    requires Healthy(repo) && t in TenantsOf(repo) && TenantHas(t, leaf)
    ensures Manifest(leaf) in repo && repo[Manifest(leaf)].ManifestFile? && Allowed(Manifest(leaf))
  {
    hide Consistent, UniqueNames, AllNames, ValidName, OwnersOk, LifecycleOk;
    LeafPresent(repo, t, leaf);
    ValidHasShape(repo.Keys, TenantsOf(repo));
    assert Shape(t);
    match leaf {
      case TeamLeaf(name) => LongerIsValid(name, 58);
      case AppLeaf(name) => var e :| e in t.applications && e.name == name;
      case DatabaseLeaf(name) => var e :| e in t.databases && e.name == name;
    }
  }

  lemma LongerIsValid(name: string, max: nat)
    requires ValidName(name, max) && max <= 63
    ensures ValidName(name, 63)
  {
  }

  lemma ChangedAt(tenants: seq<Tenant>, i: nat, t: Tenant)
    requires i < |tenants| && t != tenants[i]
    ensures tenants[i := t] != tenants
  {
    assert tenants[i := t][i] == t;
  }

  /** What every operation on a team finds. */
  lemma TeamFacts(repo: Repository, i: nat)
    requires Healthy(repo) && i < |TenantsOf(repo)|
    ensures var t := TenantsOf(repo)[i];
            && t in TenantsOf(repo) && DistinctBy(t.applications, EntryName) && DistinctBy(t.databases, EntryName) && DistinctBy(t.services, ServiceName)
            && t.path == TeamLeaf(t.name) && (forall a <- t.applications :: a.path == AppLeaf(a.name)) && (forall d <- t.databases :: d.path == DatabaseLeaf(d.name))
            && forall s <- t.services :: s.path == s.name
  {
    hide Consistent, UniqueNames, AllNames, Shape, DistinctBy, TenantOk, Separate;
    UniqueTenants(repo);
    SeparateTenant(TenantsOf(repo), i);
    ValidHasShape(repo.Keys, TenantsOf(repo));
    OwnPaths(TenantsOf(repo), TenantsOf(repo)[i]);
  }

  lemma AppCreateGuard(repo: Repository, i: nat, q: Request)
    requires Healthy(repo) && RequestOk(q) && i < |TenantsOf(repo)| && q.operation.AppCreate?
    ensures Guarded(repo, TenantsOf(repo)[i], q, PlanAppCreate(TenantsOf(repo), i, q))
  {
    hide Healthy, Loads, Execute, ValidName, DesiredStateOk, DatabaseActive, AddEntry, ActiveIn, HasEntry, DistinctBy, IsUuid;
    assert Loads(repo) by { HealthyLoads(repo); }
    var tenants, t, p := TenantsOf(repo), TenantsOf(repo)[i], q.p;
    TeamFacts(repo, i);
    DatabaseActiveIs(t, p.databaseRef);
    var plan := PlanAppCreate(tenants, i, q);
    if TeamObjects(repo, t, q).Some? {
      RefusalIsGuarded(repo, t, q, TeamObjects(repo, t, q).value);
    } else {
      ClearOne(repo, plan.actions[0]);
      AddEntryLonger(t.applications, NewEntry(AppLeaf(p.name), p.databaseRef));
      ChangedAt(tenants, i, plan.tenants[i]);
    }
  }

  lemma AddEntryLonger(entries: seq<Entry>, e: Entry)
    ensures |AddEntry(entries, e)| == |entries| + 1
  {
    hide SortBy;
  }

  lemma HealthyLoads(repo: Repository)
    requires Healthy(repo)
    ensures Loads(repo)
  {
    hide Loads, Consistent;
  }

  lemma AppUpdateGuard(repo: Repository, i: nat, q: Request)
    requires Healthy(repo) && RequestOk(q) && i < |TenantsOf(repo)| && q.operation.AppUpdate?
    ensures Guarded(repo, TenantsOf(repo)[i], q, PlanAppUpdate(TenantsOf(repo), i, q))
  {
    hide Healthy, Loads, Execute, ValidName, DesiredStateOk, DatabaseActive, Index, HasEntry, DistinctBy, IsUuid;
    assert Loads(repo) by { HealthyLoads(repo); }
    var tenants, t, p := TenantsOf(repo), TenantsOf(repo)[i], q.p;
    TeamFacts(repo, i);
    DatabaseActiveIs(t, p.databaseRef);
    EntryAt(t.applications, p.name);
    var plan := PlanAppUpdate(tenants, i, q);
    if TeamObjects(repo, t, q).Some? {
      RefusalIsGuarded(repo, t, q, TeamObjects(repo, t, q).value);
    } else {
      ClearOne(repo, plan.actions[0]);
    }
  }

  /** A deletion asks that the entry is active. */
  lemma DeletionGuard(repo: Repository, i: nat, q: Request)
    requires Healthy(repo) && RequestOk(q) && i < |TenantsOf(repo)| && (q.operation.AppDelete? || q.operation.DatabaseDelete?)
    ensures Guarded(repo, TenantsOf(repo)[i], q, PlanIn(repo, TenantsOf(repo), i, q))
  {
    hide Healthy, Loads, Execute, ValidName, DesiredStateOk, Index, HasEntry, DistinctBy, IsUuid;
    assert Loads(repo) by { HealthyLoads(repo); }
    var tenants, t, p := TenantsOf(repo), TenantsOf(repo)[i], q.p;
    TeamFacts(repo, i);
    EntryAt(t.applications, p.name);
    EntryAt(t.databases, p.name);
    var plan := PlanIn(repo, tenants, i, q);
    if TeamObjects(repo, t, q).Some? {
      RefusalIsGuarded(repo, t, q, TeamObjects(repo, t, q).value);
    } else {
      var databases := q.operation.DatabaseDelete?;
      var j := Index(EntriesOf(t, databases), EntryName, p.name);
      var leaf := if databases then DatabaseLeaf(p.name) else AppLeaf(p.name);
      HasListed(t, databases, p.name);
      ListedLeaf(repo, t, leaf);
      ClearOne(repo, plan.actions[0]);
      var e := EntriesOf(t, databases)[j];
      assert plan.tenants[i] == WithEntries(t, databases, EntriesOf(t, databases)[j := Retired(e, q.id)]);
      assert EntriesOf(plan.tenants[i], databases)[j] != e;
      ChangedAt(tenants, i, plan.tenants[i]);
    }
  }

  lemma HasListed(t: Tenant, databases: bool, name: string)
    requires HasEntry(EntriesOf(t, databases), name)
    ensures TenantHas(t, if databases then DatabaseLeaf(name) else AppLeaf(name))
  {
  }

  /** A finalization asks that the entry retires under the request, and that nothing foreign is in its directory. */
  lemma FinalizationGuard(repo: Repository, i: nat, q: Request)
    requires Healthy(repo) && RequestOk(q) && i < |TenantsOf(repo)| && (q.operation.AppFinalize? || q.operation.DatabaseFinalize?)
    ensures Guarded(repo, TenantsOf(repo)[i], q, PlanIn(repo, TenantsOf(repo), i, q))
  {
    hide Healthy, Loads, Execute, ValidName, DesiredStateOk, Index, HasEntry, DistinctBy, IsUuid, Without, Droppable;
    assert Loads(repo) by { HealthyLoads(repo); }
    var tenants, t, p := TenantsOf(repo), TenantsOf(repo)[i], q.p;
    TeamFacts(repo, i);
    EntryAt(t.applications, p.name);
    EntryAt(t.databases, p.name);
    var plan := PlanIn(repo, tenants, i, q);
    if TeamObjects(repo, t, q).Some? {
      RefusalIsGuarded(repo, t, q, TeamObjects(repo, t, q).value);
    } else {
      var databases := q.operation.DatabaseFinalize?;
      var j := Index(EntriesOf(t, databases), EntryName, p.name);
      var leaf := if databases then DatabaseLeaf(p.name) else AppLeaf(p.name);
      HasListed(t, databases, p.name);
      ListedLeaf(repo, t, leaf);
      LeafDroppable(repo, leaf);
      ClearOne(repo, plan.actions[0]);
      EntryLeaves(EntriesOf(t, databases), EntriesOf(t, databases)[j], p.name);
      ChangedAt(tenants, i, plan.tenants[i]);
    }
  }

  lemma EntryLeaves(entries: seq<Entry>, e: Entry, name: string)
    requires e in entries && e.name == name
    ensures Without(entries, EntryName, [name]) != entries
  {
    hide Without;
    assert e !in Without(entries, EntryName, [name]);
  }

  lemma DatabaseCreateGuard(repo: Repository, i: nat, q: Request)
    requires Healthy(repo) && RequestOk(q) && i < |TenantsOf(repo)| && (q.operation.DatabaseCreate? || q.operation.DatabaseRestore?)
    ensures Guarded(repo, TenantsOf(repo)[i], q, PlanDatabaseCreate(TenantsOf(repo), i, q))
  {
    hide Healthy, Loads, Execute, ValidName, DesiredStateOk, AddEntry, HasEntry, IsUuid;
    assert Loads(repo) by { HealthyLoads(repo); }
    var tenants, t, p := TenantsOf(repo), TenantsOf(repo)[i], q.p;
    var plan := PlanDatabaseCreate(tenants, i, q);
    if TeamObjects(repo, t, q).Some? {
      RefusalIsGuarded(repo, t, q, TeamObjects(repo, t, q).value);
    } else {
      ClearOne(repo, plan.actions[0]);
      AddEntryLonger(t.databases, NewEntry(DatabaseLeaf(p.name), ""));
      ChangedAt(tenants, i, plan.tenants[i]);
    }
  }

  lemma DatabaseUpdateGuard(repo: Repository, i: nat, q: Request)
    requires Healthy(repo) && RequestOk(q) && i < |TenantsOf(repo)| && q.operation.DatabaseUpdate?
    ensures Guarded(repo, TenantsOf(repo)[i], q, PlanDatabaseUpdate(repo, TenantsOf(repo), i, q))
  {
    hide Healthy, Loads, Execute, ValidName, Index, HasEntry, DistinctBy, IsUuid;
    assert Loads(repo) by { HealthyLoads(repo); }
    var tenants, t, p := TenantsOf(repo), TenantsOf(repo)[i], q.p;
    TeamFacts(repo, i);
    EntryAt(t.databases, p.name);
    var plan := PlanDatabaseUpdate(repo, tenants, i, q);
    if HasEntry(t.databases, p.name) {
      HasListed(t, true, p.name);
      ListedLeaf(repo, t, DatabaseLeaf(p.name));
      ListedStored(repo, t, p.name);
    }
    if TeamObjects(repo, t, q).Some? {
      RefusalIsGuarded(repo, t, q, TeamObjects(repo, t, q).value);
    } else {
      ClearOne(repo, plan.actions[0]);
    }
  }

  lemma ListedStored(repo: Repository, t: Tenant, name: string)
    requires Healthy(repo) && t in TenantsOf(repo) && TenantHas(t, DatabaseLeaf(name))
    ensures Manifest(DatabaseLeaf(name)) in repo && Stored(repo[Manifest(DatabaseLeaf(name))])
  {
    hide Valid, TenantHas, TenantLists, Stored;
    assert HasLeaf(TenantsOf(repo), DatabaseLeaf(name));
    var l := ListingOf(TenantsOf(repo), DatabaseLeaf(name));
    assert LeafAgrees(repo, l);
  }

  // ---------------------------------------------------------------- teams

  lemma TeamUpdateGuard(repo: Repository, i: nat, q: Request)
    requires Healthy(repo) && RequestOk(q) && i < |TenantsOf(repo)| && q.operation.TeamUpdate?
    ensures Guarded(repo, TenantsOf(repo)[i], q, PlanTeamUpdate(TenantsOf(repo), i, q))
  {
    hide Healthy, Loads, Execute, ValidName, DesiredStateOk, TeamFile, Normalize, IsUuid;
    assert Loads(repo) by { HealthyLoads(repo); }
    ClearOne(repo, PlanTeamUpdate(TenantsOf(repo), i, q).actions[0]);
  }

  lemma ApprovalClear(repo: Repository, t: Tenant, leaf: Leaf, q: Request)
    requires Healthy(repo) && t in TenantsOf(repo) && TenantHas(t, leaf)
    ensures Blocked(repo, Approve(leaf, q.id, q.p.force)).None?
  {
    hide Healthy, TenantHas, ValidName;
    ListedLeaf(repo, t, leaf);
  }

  lemma TeamDeleteGuard(repo: Repository, i: nat, q: Request)
    requires Healthy(repo) && RequestOk(q) && i < |TenantsOf(repo)| && q.operation.TeamDelete?
    requires TenantsOf(repo)[i].name == q.p.name && TenantsOf(repo)[i].lifecycle.Active?
    ensures Guarded(repo, TenantsOf(repo)[i], q, PlanTeamDelete(TenantsOf(repo), i, q))
  {
    hide Healthy, Loads, Execute, RequestOk, Approvals, RetireTenant, Blocked;
    assert Loads(repo) by { HealthyLoads(repo); }
    var tenants, t := TenantsOf(repo), TenantsOf(repo)[i];
    var plan := PlanTeamDelete(tenants, i, q);
    forall a <- plan.actions ensures Blocked(repo, a).None? {
      ApprovalHas(t, q, a);
      ApprovalClear(repo, t, a.leaf, q);
    }
    RetiredTenantDiffers(t, q.id);
    ChangedAt(tenants, i, plan.tenants[i]);
  }

  lemma ApprovalHas(t: Tenant, q: Request, a: Action)
    requires t.name == q.p.name && a in [Approve(TeamLeaf(q.p.name), q.id, q.p.force)] + Approvals(t.applications, false, q) + Approvals(t.databases, true, q)
    ensures a.Approve? && a == Approve(a.leaf, q.id, q.p.force) && TenantHas(t, a.leaf)
  {
    if a in Approvals(t.applications, false, q) {
      var k :| 0 <= k < |t.applications| && Approvals(t.applications, false, q)[k] == a;
      assert t.applications[k] in t.applications;
    } else if a in Approvals(t.databases, true, q) {
      var k :| 0 <= k < |t.databases| && Approvals(t.databases, true, q)[k] == a;
      assert t.databases[k] in t.databases;
    }
  }

  lemma RetiredTenantDiffers(t: Tenant, id: string)
    requires t.lifecycle.Active?
    ensures RetireTenant(t, id) != t
  {
    hide RetireEntries, RetireServices;
  }

  lemma SourceDroppableIs(repo: Repository, t: Tenant, s: Service)
    requires Loads(repo) && t in TenantsOf(repo) && s in t.services
    ensures Blocked(repo, DropSource(s)).None? <==> SourceDroppable(repo, s)
  {
    hide UniqueNames, AllNames, ValidName, OwnersOk, LifecycleOk, ServiceLifecycleOk, TemplateComponents, SourceFiles, SourceExists, HasEntry;
    assert ServiceOk(repo.Keys, t.databases, s);
    TemplateGenerates(s.template);
    if SourceDroppable(repo, s) {
      assert ExactSource(repo, s.path, SourceFiles(s.template));
    }
    if ExactSource(repo, s.path, SourceFiles(s.template)) {
      forall f: SourceFile ensures Source(s.path, f) in repo <==> Generates(s.template, f) {
        if Source(s.path, f) in repo {
          assert Source(s.path, f).file in SourceFiles(s.template);
        }
      }
    }
  }

  lemma ListedDroppable(repo: Repository, t: Tenant, leaf: Leaf)
    requires Healthy(repo) && t in TenantsOf(repo) && TenantHas(t, leaf)
    ensures Blocked(repo, DropLeaf(leaf)).None? <==> Droppable(repo, leaf)
  {
    hide Healthy, TenantHas, Droppable, Blocked, Allowed;
    ListedLeaf(repo, t, leaf);
    LeafDroppable(repo, leaf);
  }

  lemma TeamFinalizeGuard(repo: Repository, i: nat, q: Request)
    requires Healthy(repo) && RequestOk(q) && i < |TenantsOf(repo)| && q.operation.TeamFinalize? && TenantsOf(repo)[i].name == q.p.name
    ensures Guarded(repo, TenantsOf(repo)[i], q, PlanTeamFinalize(TenantsOf(repo), i, q))
  {
    hide Healthy, Loads, Execute, RequestOk, Drops, SourceDrops, Blocked, Droppable, SourceDroppable, Without, DistinctBy;
    assert Loads(repo) by { HealthyLoads(repo); }
    var tenants, t := TenantsOf(repo), TenantsOf(repo)[i];
    TeamFacts(repo, i);
    var plan := PlanTeamFinalize(tenants, i, q);
    if TeamObjects(repo, t, q).Some? {
      RefusalIsGuarded(repo, t, q, TeamObjects(repo, t, q).value);
    } else {
      TeamDropsClear(repo, t, q);
      UniqueTenants(repo);
      FewerTenants(tenants, i);
    }
  }

  lemma TeamDropsClear(repo: Repository, t: Tenant, q: Request)
    requires Healthy(repo) && t in TenantsOf(repo) && t.name == q.p.name && q.operation.TeamFinalize?
    requires (forall a <- t.applications :: a.path == AppLeaf(a.name)) && (forall d <- t.databases :: d.path == DatabaseLeaf(d.name))
    ensures Clear(repo, [DropLeaf(TeamLeaf(q.p.name))] + Drops(t.applications) + Drops(t.databases) + SourceDrops(t.services)) <==> FilesAllow(repo, t, q)
  {
    hide Healthy, Blocked, Droppable, SourceDroppable;
    assert Loads(repo) by { HealthyLoads(repo); }
    var actions := [DropLeaf(TeamLeaf(q.p.name))] + Drops(t.applications) + Drops(t.databases) + SourceDrops(t.services);
    var team, apps, databases, sources := [DropLeaf(TeamLeaf(q.p.name))], Drops(t.applications), Drops(t.databases), SourceDrops(t.services);
    ClearParts(repo, team, apps, databases, sources);
    ClearOne(repo, team[0]);
    ListedDroppable(repo, t, TeamLeaf(t.name));
    EntryDropsClear(repo, t, false);
    EntryDropsClear(repo, t, true);
    SourceDropsClear(repo, t);
  }

  lemma ClearParts(repo: Repository, a: seq<Action>, b: seq<Action>, c: seq<Action>, d: seq<Action>)
    ensures Clear(repo, a + b + c + d) <==> Clear(repo, a) && Clear(repo, b) && Clear(repo, c) && Clear(repo, d)
  {
    hide Blocked;
    var all := a + b + c + d;
    assert forall x <- a :: x in all;
    assert forall x <- b :: x in all;
    assert forall x <- c :: x in all;
    assert forall x <- d :: x in all;
  }

  lemma EntryDropsClear(repo: Repository, t: Tenant, databases: bool)
    requires Healthy(repo) && t in TenantsOf(repo)
    requires forall e <- EntriesOf(t, databases) :: e.path == if databases then DatabaseLeaf(e.name) else AppLeaf(e.name)
    ensures Clear(repo, Drops(EntriesOf(t, databases))) <==> forall e <- EntriesOf(t, databases) :: Droppable(repo, e.path)
  {
    hide Healthy, Blocked, Droppable;
    var entries := EntriesOf(t, databases);
    forall k | 0 <= k < |entries| ensures Blocked(repo, Drops(entries)[k]).None? <==> Droppable(repo, entries[k].path) {
      assert entries[k] in entries;
      HasListed(t, databases, entries[k].name);
      ListedDroppable(repo, t, entries[k].path);
    }
    if Clear(repo, Drops(entries)) {
      forall e | e in entries ensures Droppable(repo, e.path) {
        var k :| 0 <= k < |entries| && entries[k] == e;
        assert Drops(entries)[k] in Drops(entries);
      }
    }
    if forall e <- entries :: Droppable(repo, e.path) {
      forall a <- Drops(entries) ensures Blocked(repo, a).None? {
        var k :| 0 <= k < |entries| && Drops(entries)[k] == a;
        assert entries[k] in entries;
      }
    }
  }

  lemma SourceDropsClear(repo: Repository, t: Tenant)
    requires Loads(repo) && t in TenantsOf(repo)
    ensures Clear(repo, SourceDrops(t.services)) <==> forall s <- t.services :: SourceDroppable(repo, s)
  {
    hide Loads, Blocked, SourceDroppable;
    var drops := SourceDrops(t.services);
    forall k | 0 <= k < |t.services| ensures Blocked(repo, drops[k]).None? <==> SourceDroppable(repo, t.services[k]) {
      assert t.services[k] in t.services;
      SourceDroppableIs(repo, t, t.services[k]);
    }
    if Clear(repo, drops) {
      forall s | s in t.services ensures SourceDroppable(repo, s) {
        var k :| 0 <= k < |t.services| && t.services[k] == s;
        assert drops[k] in drops;
      }
    }
    if forall s <- t.services :: SourceDroppable(repo, s) {
      forall a <- drops ensures Blocked(repo, a).None? {
        var k :| 0 <= k < |t.services| && drops[k] == a;
        assert t.services[k] in t.services;
      }
    }
  }

  // ---------------------------------------------------------------- services

  /** The one service of a name. */
  lemma ServiceAt(t: Tenant, name: string)
    requires DistinctBy(t.services, ServiceName)
    ensures var j := Index(t.services, ServiceName, name);
            && (j < 0 <==> !OffersService(t, name))
            && (j >= 0 ==> t.services[j] in t.services && t.services[j].name == name && forall s <- t.services :: s.name == name ==> s == t.services[j])
  {
    hide Index;
    FoundBy(t.services, ServiceName, name);
    var j := Index(t.services, ServiceName, name);
    if OffersService(t, name) {
      var s :| s in t.services && s.name == name;
      var k :| 0 <= k < |t.services| && t.services[k] == s;
      assert ServiceName(t.services[k]) == name;
    }
    if j >= 0 {
      assert ServiceName(t.services[j]) == name;
      forall s <- t.services | s.name == name ensures s == t.services[j] {
        var k :| 0 <= k < |t.services| && t.services[k] == s;
        assert ServiceName(t.services[k]) == ServiceName(t.services[j]);
      }
    }
  }

  lemma RetireGuard(repo: Repository, i: nat, q: Request)
    requires Healthy(repo) && RequestOk(q) && i < |TenantsOf(repo)| && q.operation.ServiceRetire?
    ensures Guarded(repo, TenantsOf(repo)[i], q, PlanServiceRetire(TenantsOf(repo), i, q))
  {
    hide Healthy, Loads, Execute, RequestOk, Index, DistinctBy, OwnedDatabase, RetireService, ApproveNamed, Blocked, OffersService, TenantHas;
    assert Loads(repo) by { HealthyLoads(repo); }
    var tenants, t := TenantsOf(repo), TenantsOf(repo)[i];
    TeamFacts(repo, i);
    ServiceAt(t, q.p.name);
    var plan := PlanServiceRetire(tenants, i, q);
    if TeamObjects(repo, t, q).Some? {
      RefusalIsGuarded(repo, t, q, TeamObjects(repo, t, q).value);
    } else {
      var j := Index(t.services, ServiceName, q.p.name);
      RetirementActions(tenants, i, j, q);
      forall a <- plan.actions ensures Blocked(repo, a).None? {
        ApprovalClear(repo, t, a.leaf, q);
      }
      RetiredServiceDiffers(t, j, q.id);
      ChangedAt(tenants, i, plan.tenants[i]);
    }
  }

  lemma RetiredServiceDiffers(t: Tenant, j: nat, id: string)
    requires j < |t.services| && !t.services[j].lifecycle.Retiring?
    ensures RetireService(t, j, id) != t
  {
    hide RetireNamed, OwnedDatabase;
    assert RetireService(t, j, id).services[j] != t.services[j];
  }

  /** One failure among actions that nothing else stops. */
  lemma {:induction false} ConflictWins(repo: Repository, actions: seq<Action>)
    requires forall a <- actions :: Blocked(repo, a).None? || a == Fail(Conflict)
    ensures if Fail(Conflict) in actions then Execute(repo, actions) == Err(Conflict) else Clear(repo, actions)
    decreases |actions|
  {
    hide Blocked, ChangePlan.Effect;
    if actions != [] {
      var init, last := actions[..|actions| - 1], actions[|actions| - 1];
      ConflictWins(repo, init);
      assert last in actions && actions == init + [last];
      assert Blocked(repo, Fail(Conflict)) == Some(Conflict) by { FailBlocks(repo); }
      if Fail(Conflict) !in init {
        ClearExecutes(repo, init);
      }
    }
  }

  lemma FailBlocks(repo: Repository)
    ensures Blocked(repo, Fail(Conflict)) == Some(Conflict)
  {
  }

  lemma {:induction false} ComponentsWriteOrFail(entries: seq<Entry>, team: string, s: Service, components: seq<string>)
    ensures forall a <- ComponentActions(team, entries, s, components) :: a == Fail(Conflict) || (a.WriteLeaf? && a.leaf.AppLeaf? && a.leaf.name in components)
    decreases |components|
  {
    hide Index, ComponentFile, WithComponents;
    if components != [] {
      ComponentsWriteOrFail(entries, team, s, components[..|components| - 1]);
    }
  }

  lemma ActivateGuard(repo: Repository, i: nat, q: Request)
    requires Healthy(repo) && RequestOk(q) && i < |TenantsOf(repo)| && q.operation.ServiceActivate?
    ensures Guarded(repo, TenantsOf(repo)[i], q, PlanServiceActivate(TenantsOf(repo), i, q))
  {
    hide Healthy, Loads, Execute, RequestOk, Index, DistinctBy, ComponentActions, WithComponents, SortBy, Blocked, OffersService, ComponentRetires;
    assert Loads(repo) by { HealthyLoads(repo); }
    var tenants, t := TenantsOf(repo), TenantsOf(repo)[i];
    TeamFacts(repo, i);
    ServiceAt(t, q.p.name);
    var j := Index(t.services, ServiceName, q.p.name);
    var plan := PlanServiceActivate(tenants, i, q);
    if j < 0 || t.services[j].lifecycle.Retiring? {
      RefusalIsGuarded(repo, t, q, TeamObjects(repo, t, q).value);
    } else {
      ActivationPlanned(repo, t, q, j);
      assert TeamObjects(repo, t, q) == if ComponentRetires(t, t.services[j]) then Some(Conflict) else None;
    }
  }

  lemma ActivationPlanned(repo: Repository, t: Tenant, q: Request, j: nat)
    requires Healthy(repo) && RequestOk(q) && q.operation.ServiceActivate? && t in TenantsOf(repo) && DistinctBy(t.applications, EntryName)
    requires j < |t.services| && t.services[j].name == q.p.name
    ensures var s := t.services[j].(version := q.p.version); var active := s.(lifecycle := Active);
            var actions := ComponentActions(q.p.team, t.applications, s, s.components) + [WriteVersion(active)];
            if ComponentRetires(t, t.services[j]) then Execute(repo, actions) == Err(Conflict) else Clear(repo, actions)
  {
    hide Healthy, Loads, Execute, RequestOk, DistinctBy, ComponentActions, WithComponents, Blocked, Activated;
    assert Loads(repo) by { HealthyLoads(repo); }
    var s := t.services[j].(version := q.p.version);
    var active := s.(lifecycle := Active);
    var writes := ComponentActions(q.p.team, t.applications, s, s.components);
    var actions := writes + [WriteVersion(active)];
    ComponentsWriteOrFail(t.applications, q.p.team, s, s.components);
    NameFits(q);
    ServicePathsAllowed(repo, t, t.services[j]);
    forall a <- actions ensures Blocked(repo, a).None? || a == Fail(Conflict) {
      if a == WriteVersion(active) {
        VersionAllowed(repo, active);
      } else if a != Fail(Conflict) {
        WriteAllowed(repo, a);
      }
    }
    ConflictWins(repo, actions);
    if ComponentRetires(t, t.services[j]) {
      if Fail(Conflict) !in actions {
        assert forall a <- writes :: a in actions;
        ComponentsActivate(t.applications, q.p.team, s, s.components);
        ActivatedAreActive(t.applications, q.p.team, s, WithComponents(t.applications, s, s.components), writes);
      }
    } else {
      OursClear(t.applications, q.p.team, s, s.components, s.components);
      assert WriteVersion(active) != Fail(Conflict);
    }
  }

  lemma ActivatedAreActive(before: seq<Entry>, team: string, s: Service, after: seq<Entry>, writes: seq<Action>)
    requires Activated(before, after, writes, team, s, s.components)
    ensures forall e <- before :: e.name in s.components ==> e.lifecycle.Active?
  {
    hide ComponentFile, HasEntry;
  }

  lemma WriteAllowed(repo: Repository, a: Action)
    requires a.WriteLeaf? && Allowed(Manifest(a.leaf))
    ensures Blocked(repo, a).None?
  {
    hide ValidName;
  }

  lemma VersionAllowed(repo: Repository, s: Service)
    requires AllAllowed(s.path, [VersionFile, Descriptor])
    ensures Blocked(repo, WriteVersion(s)).None?
  {
    hide AllAllowed;
  }

  /** The paths of a listed service are allowed. */
  lemma ServicePathsAllowed(repo: Repository, t: Tenant, s: Service)
    requires Loads(repo) && t in TenantsOf(repo) && s in t.services
    ensures AllAllowed(s.path, [VersionFile, Descriptor]) && forall c <- s.components :: Allowed(Manifest(AppLeaf(c)))
  {
    hide UniqueNames, AllNames, ValidName, OwnersOk, LifecycleOk, ServiceLifecycleOk, SourceExists, HasEntry, SourceFiles;
    assert ServiceOk(repo.Keys, t.databases, s);
    ApiNameIsValid(s.name);
  }

  lemma {:induction false} NamedDropsClear(repo: Repository, t: Tenant, names: seq<string>, q: Request)
    requires Healthy(repo) && t in TenantsOf(repo) && DistinctBy(t.applications, EntryName) && forall a <- t.applications :: a.path == AppLeaf(a.name)
    ensures Clear(repo, DropNamed(t.applications, names, q.p)) <==>
              forall e <- t.applications :: e.name in names ==> RetiresFor(e.lifecycle, e.request, q) && Droppable(repo, AppLeaf(e.name))
    decreases |names|
  {
    hide Healthy, Blocked, Droppable, Index, DistinctBy;
    if names != [] {
      var init, c := names[..|names| - 1], names[|names| - 1];
      NamedDropsClear(repo, t, init, q);
      EntryAt(t.applications, c);
      var j := Index(t.applications, EntryName, c);
      var last := if j < 0 then [] else [DropIfRetiring(t.applications[j], q.p)];
      assert names == init + [c];
      ClearTwo(repo, DropNamed(t.applications, init, q.p), last);
      if j >= 0 {
        ClearOne(repo, last[0]);
        EntryDropClear(repo, t, t.applications[j], false, q);
      }
      assert Clear(repo, last) <==> forall e <- t.applications :: e.name == c ==> RetiresFor(e.lifecycle, e.request, q) && Droppable(repo, AppLeaf(e.name));
    }
  }

  lemma ClearTwo(repo: Repository, a: seq<Action>, b: seq<Action>)
    ensures Clear(repo, a + b) <==> Clear(repo, a) && Clear(repo, b)
  {
    hide Blocked;
    assert forall x <- a :: x in a + b;
    assert forall x <- b :: x in a + b;
  }

  lemma EntryDropClear(repo: Repository, t: Tenant, e: Entry, databases: bool, q: Request)
    requires Healthy(repo) && t in TenantsOf(repo) && e in EntriesOf(t, databases)
    requires e.path == if databases then DatabaseLeaf(e.name) else AppLeaf(e.name)
    ensures Blocked(repo, DropIfRetiring(e, q.p)).None? <==> RetiresFor(e.lifecycle, e.request, q) && Droppable(repo, e.path)
  {
    hide Healthy, Droppable, TenantHas;
    hide Allowed, LeafExists, OnlyGenerated;
    HasListed(t, databases, e.name);
    ListedDroppable(repo, t, e.path);
  }

  lemma OwnedDatabaseAt(t: Tenant, s: Service)
    requires DistinctBy(t.databases, EntryName)
    ensures var k := OwnedDatabase(t, s);
            && (k >= 0 ==> t.databases[k] in t.databases)
            && forall d <- t.databases :: (s.ownsDatabase && |s.databaseRef| > 0 && d.name == s.databaseRef <==> k >= 0 && d == t.databases[k])
  {
    hide Index, DistinctBy;
    EntryAt(t.databases, s.databaseRef);
    forall d <- t.databases | d.name == s.databaseRef ensures HasEntry(t.databases, s.databaseRef) {
    }
  }

  lemma FinalizeGuard(repo: Repository, i: nat, q: Request)
    requires Healthy(repo) && RequestOk(q) && i < |TenantsOf(repo)| && q.operation.ServiceFinalize?
    ensures Guarded(repo, TenantsOf(repo)[i], q, PlanServiceFinalize(TenantsOf(repo), i, q))
  {
    hide Healthy, Loads, Execute, RequestOk, Index, DistinctBy, DropNamed, OwnedDatabase, FinalizeService, Without, Blocked, OffersService, ServiceDroppable;
    assert Loads(repo) by { HealthyLoads(repo); }
    var tenants, t := TenantsOf(repo), TenantsOf(repo)[i];
    TeamFacts(repo, i);
    ServiceAt(t, q.p.name);
    var plan := PlanServiceFinalize(tenants, i, q);
    if TeamObjects(repo, t, q).Some? {
      RefusalIsGuarded(repo, t, q, TeamObjects(repo, t, q).value);
    } else {
      var j := Index(t.services, ServiceName, q.p.name);
      var s := t.services[j];
      ServiceDropsClear(repo, i, q, j);
      if s.ownsTeam {
        UniqueTenants(repo);
        FewerTenants(tenants, i);
      } else {
        FewerServices(t, s);
        ChangedAt(tenants, i, plan.tenants[i]);
      }
    }
  }

  lemma ServiceDropsClear(repo: Repository, i: nat, q: Request, j: nat)
    requires Healthy(repo) && i < |TenantsOf(repo)| && j < |TenantsOf(repo)[i].services|
    requires var t := TenantsOf(repo)[i]; Index(t.services, ServiceName, q.p.name) == j && IsRetiringUnder(t.services[j].lifecycle, t.services[j].request, q.p)
    ensures var t := TenantsOf(repo)[i];
            Clear(repo, PlanServiceFinalize(TenantsOf(repo), i, q).actions) <==> ServiceDroppable(repo, t, t.services[j], q)
  {
    hide Healthy, Loads, Index, DistinctBy, DropNamed, OwnedDatabase, FinalizeService, Without, Blocked, SourceDroppable, Droppable, TenantHas;
    assert Loads(repo) by { HealthyLoads(repo); }
    var t := TenantsOf(repo)[i];
    var s, k := t.services[j], OwnedDatabase(t, t.services[j]);
    TeamFacts(repo, i);
    assert s in t.services;
    var first := DropNamed(t.applications, s.components, q.p);
    var second := if k < 0 then [] else [DropIfRetiring(t.databases[k], q.p)];
    var last := if s.ownsTeam then [if IsRetiringUnder(t.lifecycle, t.request, q.p) then DropLeaf(t.path) else Fail(Conflict)] else [];
    assert PlanServiceFinalize(TenantsOf(repo), i, q).actions == first + second + [DropSource(s)] + last;
    ClearParts(repo, first, second, [DropSource(s)], last);
    NamedDropsClear(repo, t, s.components, q);
    OwnedDatabaseAt(t, s);
    if k >= 0 {
      ClearOne(repo, second[0]);
      EntryDropClear(repo, t, t.databases[k], true, q);
    }
    ClearOne(repo, DropSource(s));
    SourceDroppableIs(repo, t, s);
    if s.ownsTeam {
      ClearOne(repo, last[0]);
      TeamDropClear(repo, t, q);
    }
  }

  lemma TeamDropClear(repo: Repository, t: Tenant, q: Request)
    requires Healthy(repo) && t in TenantsOf(repo) && t.path == TeamLeaf(t.name)
    ensures Blocked(repo, if IsRetiringUnder(t.lifecycle, t.request, q.p) then DropLeaf(t.path) else Fail(Conflict)).None?
            <==> RetiresFor(t.lifecycle, t.request, q) && Droppable(repo, TeamLeaf(t.name))
  {
    hide Healthy, Droppable, TenantHas, Allowed, LeafExists, OnlyGenerated;
    assert TenantHas(t, TeamLeaf(t.name)) by { HasOwnLeaf(t); }
    ListedDroppable(repo, t, TeamLeaf(t.name));
  }

  lemma HasOwnLeaf(t: Tenant)
    ensures TenantHas(t, TeamLeaf(t.name))
  {
  }

  // ---------------------------------------------------------------- new teams and new services

  /** What the catalog objects to in a scaffold. */
  ghost function ScaffoldObjects(tenants: seq<Tenant>, p: Parameters): Option<ExitCode> {
    if exists t <- tenants :: OffersService(t, p.name) then Some(Conflict)
    else if exists t <- tenants :: t.name == p.team then
      if p.createTeam || exists t <- tenants :: t.name == p.team && (!t.lifecycle.Active? || (p.withDatabase && ActiveIn(t.databases, p.name)))
      then Some(Conflict) else None
    else if p.createTeam && p.team == p.name then None else Some(NotFound)
  }

  lemma ScaffoldActionsClear(repo: Repository, p: Parameters)
    requires ValidName(p.name, 48)
    ensures forall a <- ScaffoldActions(p) :: a == WriteSource(NewService(p)) || Blocked(repo, a).None?
    ensures Clear(repo, ScaffoldActions(p)) <==> GoldensThere(repo, p.template)
    ensures !GoldensThere(repo, p.template) ==> Blocked(repo, WriteSource(NewService(p))) == Some(Internal)
  {
    hide ScaffoldActions, ValidName, SourceFiles, AllAllowed, TemplateComponents;
    ScaffoldActionsAre(p);
    OwnPathsAllowed(p);
    assert WriteSource(NewService(p)) in ScaffoldActions(p);
  }

  /** A scaffold whose sources cannot be generated stops there. */
  lemma GoldenMissing(repo: Repository, before: seq<Action>, p: Parameters)
    requires Clear(repo, before) && ValidName(p.name, 48) && !GoldensThere(repo, p.template)
    ensures Execute(repo, before + ScaffoldActions(p)) == Err(Internal)
  {
    hide ScaffoldActions, ValidName, GoldensThere, Blocked, NewService;
    ScaffoldActionsAre(p);
    ScaffoldActionsClear(repo, p);
    var actions := before + ScaffoldActions(p);
    var init := actions[..|actions| - 1];
    assert actions[|actions| - 1] == WriteSource(NewService(p));
    ScaffoldInit(p);
    forall a <- init ensures Blocked(repo, a).None? {
      if a !in before {
        assert a in ScaffoldActions(p)[..|ScaffoldActions(p)| - 1];
      }
    }
    ClearExecutes(repo, init);
  }

  lemma ScaffoldInit(p: Parameters)
    ensures forall a <- ScaffoldActions(p)[..|ScaffoldActions(p)| - 1] :: a in ScaffoldActions(p) && a.WriteLeaf?
  {
  }

  /** A scaffold goes on with the actions it adds to a team. */
  lemma ScaffoldRuns(repo: Repository, before: seq<Action>, p: Parameters)
    requires Clear(repo, before) && ValidName(p.name, 48)
    ensures var done := Execute(repo, before + ScaffoldActions(p)); if GoldensThere(repo, p.template) then done.Ok? else done == Err(Internal)
  {
    hide ScaffoldActions, ValidName, GoldensThere, Clear;
    ScaffoldActionsClear(repo, p);
    if GoldensThere(repo, p.template) {
      ClearTwo(repo, before, ScaffoldActions(p));
      ClearExecutes(repo, before + ScaffoldActions(p));
    } else {
      GoldenMissing(repo, before, p);
    }
  }

  lemma ScaffoldGuard(repo: Repository, q: Request)
    requires Healthy(repo) && RequestOk(q) && q.operation.ServiceScaffold?
    ensures var tenants := TenantsOf(repo); var plan, o := PlanServiceScaffold(tenants, q), ScaffoldObjects(tenants, q.p);
            && (o.Some? ==> Execute(repo, plan.actions) == Err(o.value))
            && (o.None? ==> plan.tenants != tenants && if GoldensThere(repo, q.p.template) then Execute(repo, plan.actions).Ok? else Execute(repo, plan.actions) == Err(Internal))
  {
    hide Healthy, Loads, Execute, RequestOk, Index, ScaffoldActions, WithService, SortBy, DatabaseActive, TeamFile, ServiceTeam, Clear, ActiveIn, OffersService,
         DistinctBy, GoldensThere;
    assert Loads(repo) by { HealthyLoads(repo); }
    var p, tenants := q.p, TenantsOf(repo);
    var i := Index(tenants, TenantName, p.team);
    var plan := PlanServiceScaffold(tenants, q);
    NameFits(q);
    FoundBy(tenants, TenantName, p.team);
    assert AnyService(tenants, p.name) <==> exists t <- tenants :: OffersService(t, p.name) by { AnyServiceIs(tenants, p.name); }
    assert (exists t <- tenants :: t.name == p.team) <==> i >= 0 by { NamedIs(tenants, p.team); }
    if AnyService(tenants, p.name) {
      RefusedIs(repo, tenants, Conflict);
    } else if i >= 0 {
      TeamFacts(repo, i);
      DatabaseActiveIs(tenants[i], p.name);
      OnlyTeam(repo, i);
      assert ScaffoldObjects(tenants, p) == if p.createTeam || !tenants[i].lifecycle.Active? || (p.withDatabase && ActiveIn(tenants[i].databases, p.name))
                                            then Some(Conflict) else None;
      NothingIsClear(repo);
      ScaffoldInGuard(repo, tenants, i, p, []);
      if p.createTeam {
        RefusedIs(repo, tenants, Conflict);
      } else if ScaffoldObjects(tenants, p).None? {
        ServiceAdded(tenants[i], p);
        ChangedAt(tenants, i, WithService(tenants[i], p));
      }
    } else if !p.createTeam || p.team != p.name {
      RefusedIs(repo, tenants, NotFound);
    } else {
      NewTeamGuard(repo, q);
    }
  }

  lemma NothingIsClear(repo: Repository)
    ensures Clear(repo, [])
  {
  }

  lemma ServiceAdded(t: Tenant, p: Parameters)
    ensures WithService(t, p) != t
  {
    hide SortBy, AddEntry;
    assert |WithService(t, p).services| == |t.services| + 1;
  }

  lemma AnyServiceIs(tenants: seq<Tenant>, name: string)
    ensures AnyService(tenants, name) <==> exists t <- tenants :: OffersService(t, name)
  {
  }

  lemma NamedIs(tenants: seq<Tenant>, name: string)
    ensures (exists t <- tenants :: t.name == name) <==> Index(tenants, TenantName, name) >= 0
  {
    hide Index;
    var i := Index(tenants, TenantName, name);
    if exists t <- tenants :: t.name == name {
      var t :| t in tenants && t.name == name;
      var k :| 0 <= k < |tenants| && tenants[k] == t;
      assert TenantName(tenants[k]) == name;
    }
    if i >= 0 {
      assert tenants[i] in tenants && TenantName(tenants[i]) == name;
    }
  }

  /** A team name is that of one tenant. */
  lemma OnlyTeam(repo: Repository, i: nat)
    requires Loads(repo) && i < |TenantsOf(repo)|
    ensures forall t <- TenantsOf(repo) :: t.name == TenantsOf(repo)[i].name ==> t == TenantsOf(repo)[i]
    ensures Index(TenantsOf(repo), TenantName, TenantsOf(repo)[i].name) == i
  {
    hide Loads, Index;
    var tenants := TenantsOf(repo);
    TeamAt(repo, i);
    forall t <- tenants | t.name == tenants[i].name ensures t == tenants[i] {
      var k :| 0 <= k < |tenants| && tenants[k] == t;
      TeamAt(repo, k);
    }
  }

  lemma ScaffoldInGuard(repo: Repository, tenants: seq<Tenant>, i: nat, p: Parameters, before: seq<Action>)
    requires i < |tenants| && Clear(repo, before) && ValidName(p.name, 48)
    ensures var plan := PlanScaffoldIn(tenants, i, p, before); var done := Execute(repo, plan.actions);
            if !tenants[i].lifecycle.Active? || (p.withDatabase && DatabaseActive(tenants[i], p.name)) then done == Err(Conflict)
            else plan.tenants == tenants[i := WithService(tenants[i], p)] && if GoldensThere(repo, p.template) then done.Ok? else done == Err(Internal)
  {
    hide Execute, ScaffoldActions, WithService, ValidName, Clear, GoldensThere, DatabaseActive;
    FailedIs(repo, before, Conflict);
    ScaffoldRuns(repo, before, p);
  }

  lemma NewTeamGuard(repo: Repository, q: Request)
    requires Healthy(repo) && RequestOk(q) && q.operation.ServiceScaffold? && q.p.createTeam && q.p.team == q.p.name
    requires !AnyService(TenantsOf(repo), q.p.name) && Index(TenantsOf(repo), TenantName, q.p.team) < 0
    ensures var tenants := TenantsOf(repo); var plan := PlanServiceScaffold(tenants, q);
            plan.tenants != tenants && if GoldensThere(repo, q.p.template) then Execute(repo, plan.actions).Ok? else Execute(repo, plan.actions) == Err(Internal)
  {
    hide Healthy, Loads, Execute, RequestOk, Index, ScaffoldActions, WithService, SortBy, DatabaseActive, TeamFile, ServiceTeam, Clear, AnyService,
         GoldensThere, UniqueNames, AllNames, PlanScaffoldIn, Blocked;
    assert Loads(repo) by { HealthyLoads(repo); }
    var p, tenants := q.p, TenantsOf(repo);
    var team := NewTenant(p.team, ServiceTeam(p).owners);
    var first := WriteLeaf(TeamLeaf(p.team), TeamFile(p.team, ServiceTeam(p)));
    NameFits(q);
    UniqueTenants(repo);
    var k := NewTeamAt(tenants, team);
    NoDatabases(team, p.name);
    TeamLeafAllowed(p.name);
    WriteAllowed(repo, first);
    ClearOne(repo, first);
    ScaffoldInGuard(repo, SortBy(tenants + [team], TenantName), k, p, [first]);
  }

  lemma TeamLeafAllowed(name: string)
    requires ValidName(name, 48)
    ensures Allowed(Manifest(TeamLeaf(name)))
  {
  }

  // ---------------------------------------------------------------- the main result

  ghost predicate Generated(repo: Repository, leaf: Leaf, file: File) {
    && Manifest(leaf) in repo && repo[Manifest(leaf)] == file && Kustomization(leaf) in repo && repo[Kustomization(leaf)] == KustomizationFile(leaf)
  }

  /** An update that asks for what is there. */
  ghost predicate AlreadySo(repo: Repository, t: Tenant, q: Request) {
    var p := q.p;
    match q.operation
    case TeamUpdate => t.owners == Normalize(p.owners) && Generated(repo, TeamLeaf(p.name), TeamFile(p.name, p))
    case AppUpdate =>
      && (forall e <- t.applications :: e.name == p.name ==> e.databaseRef == p.databaseRef)
      && Generated(repo, AppLeaf(p.name), AppFile(p.team, p, true))
    case DatabaseUpdate => exists file :: UpdatedDatabase(repo, p) == Ok(file) && Generated(repo, DatabaseLeaf(p.name), file)
    case _ => false
  }

  /** The service is active at the version already; its files may still differ. */
  ghost predicate MayBeSo(t: Tenant, q: Request) {
    q.operation.ServiceActivate? && exists s <- t.services :: s.name == q.p.name && s.lifecycle.Active? && s.version == q.p.version
  }

  lemma NothingToSet(repo: Repository, path: Path, file: File)
    ensures SetChange(repo, path, file) == map[] <==> path in repo && repo[path] == file
  {
    assert SetChange(repo, path, file) != map[] ==> path in SetChange(repo, path, file);
    if !(path in repo && repo[path] == file) {
      assert path in SetChange(repo, path, file);
    }
  }

  lemma WriteEffect(repo: Repository, leaf: Leaf, file: File)
    requires Clear(repo, [WriteLeaf(leaf, file)])
    ensures Execute(repo, [WriteLeaf(leaf, file)]).Ok? && (Execute(repo, [WriteLeaf(leaf, file)]).value == map[] <==> Generated(repo, leaf, file))
  {
    var a := WriteLeaf(leaf, file);
    assert [a][0] == a && [a][..0] == [];
    ClearExecutes(repo, [a]);
    NothingToSet(repo, Manifest(leaf), file);
    NothingToSet(repo, Kustomization(leaf), KustomizationFile(leaf));
    var one, two := SetChange(repo, Manifest(leaf), file), SetChange(repo, Kustomization(leaf), KustomizationFile(leaf));
    assert Execute(repo, [a]).value == map[] + (one + two);
    if one != map[] {
      assert Manifest(leaf) in one + two;
    } else if two != map[] {
      assert Kustomization(leaf) in one + two;
    } else {
      assert map[] + (one + two) == map[];
    }
  }

  lemma UpdateChanges(repo: Repository, i: nat, q: Request)
    requires Healthy(repo) && RequestOk(q) && i < |TenantsOf(repo)| && (q.operation.TeamUpdate? || q.operation.AppUpdate? || q.operation.DatabaseUpdate?)
    requires var plan := PlanIn(repo, TenantsOf(repo), i, q); Guarded(repo, TenantsOf(repo)[i], q, plan) && TeamObjects(repo, TenantsOf(repo)[i], q).None?
    ensures var plan := PlanIn(repo, TenantsOf(repo), i, q);
            && Execute(repo, plan.actions).Ok?
            && (Execute(repo, plan.actions).value == map[] && plan.tenants == TenantsOf(repo) <==> AlreadySo(repo, TenantsOf(repo)[i], q))
  {
    hide Healthy, Loads, Execute, RequestOk, Index, DistinctBy, TeamFile, AppFile, Clear, Generated, UpdatedDatabase, DatabaseActive, HasEntry;
    assert Loads(repo) by { HealthyLoads(repo); }
    var tenants, t, p := TenantsOf(repo), TenantsOf(repo)[i], q.p;
    var plan := PlanIn(repo, tenants, i, q);
    TeamFacts(repo, i);
    EntryAt(t.applications, p.name);
    EntryAt(t.databases, p.name);
    ClearExecutes(repo, plan.actions);
    SucceededWrites(repo, plan.actions);
    FirstWrites(plan.actions);
    assert plan.actions == [plan.actions[0]] && plan.actions[0].WriteLeaf?;
    WriteEffect(repo, plan.actions[0].leaf, plan.actions[0].manifest);
    if q.operation.TeamUpdate? {
      SameAt(tenants, i, t.(owners := Normalize(p.owners)));
    } else if q.operation.AppUpdate? {
      var j := Index(t.applications, EntryName, p.name);
      var e := t.applications[j].(databaseRef := p.databaseRef);
      SameAt(tenants, i, t.(applications := t.applications[j := e]));
      assert t.applications[j := e][j] == e;
      assert e == t.applications[j] ==> t.applications[j := e] == t.applications;
    }
  }

  lemma SameAt(tenants: seq<Tenant>, i: nat, t: Tenant)
    requires i < |tenants|
    ensures tenants[i := t] == tenants <==> t == tenants[i]
  {
    assert tenants[i := t][i] == t;
  }

  lemma ActivationChanges(repo: Repository, i: nat, q: Request)
    requires Healthy(repo) && RequestOk(q) && i < |TenantsOf(repo)| && q.operation.ServiceActivate?
    requires TeamObjects(repo, TenantsOf(repo)[i], q).None? && !MayBeSo(TenantsOf(repo)[i], q)
    ensures PlanServiceActivate(TenantsOf(repo), i, q).tenants != TenantsOf(repo)
  {
    hide Healthy, Loads, RequestOk, Index, DistinctBy, ComponentActions, WithComponents, SortBy, OffersService, ComponentRetires;
    assert Loads(repo) by { HealthyLoads(repo); }
    var tenants, t := TenantsOf(repo), TenantsOf(repo)[i];
    TeamFacts(repo, i);
    ServiceAt(t, q.p.name);
    var j := Index(t.services, ServiceName, q.p.name);
    var plan := PlanServiceActivate(tenants, i, q);
    assert plan.tenants[i].services[j] != t.services[j];
    assert plan.tenants[i] != t;
  }

  lemma OperationGuard(repo: Repository, i: nat, q: Request)
    requires Healthy(repo) && RequestOk(q) && i < |TenantsOf(repo)| && !q.operation.TeamCreate? && !q.operation.ServiceScaffold?
    requires TenantsOf(repo)[i].name == Target(q) && (TenantsOf(repo)[i].lifecycle.Active? || AllowsRetiring(q.operation))
    ensures Guarded(repo, TenantsOf(repo)[i], q, PlanIn(repo, TenantsOf(repo), i, q))
  {
    hide Healthy, Loads, RequestOk, Guarded;
    match q.operation {
      case TeamUpdate => TeamUpdateGuard(repo, i, q);
      case TeamDelete => TeamDeleteGuard(repo, i, q);
      case TeamFinalize => TeamFinalizeGuard(repo, i, q);
      case AppCreate => AppCreateGuard(repo, i, q);
      case AppUpdate => AppUpdateGuard(repo, i, q);
      case AppDelete => DeletionGuard(repo, i, q);
      case AppFinalize => FinalizationGuard(repo, i, q);
      case DatabaseUpdate => DatabaseUpdateGuard(repo, i, q);
      case DatabaseDelete => DeletionGuard(repo, i, q);
      case DatabaseFinalize => FinalizationGuard(repo, i, q);
      case ServiceActivate => ActivateGuard(repo, i, q);
      case ServiceRetire => RetireGuard(repo, i, q);
      case ServiceFinalize => FinalizeGuard(repo, i, q);
      case _ => DatabaseCreateGuard(repo, i, q);
    }
  }

  /** The name of the team a request is about. */
  ghost predicate About(q: Request, t: Tenant) {
    t.name == if q.operation in {TeamUpdate, TeamDelete, TeamFinalize} then q.p.name else q.p.team
  }

  /** What becomes of a request, from a healthy repository: for a request about a listed team. */
  ghost predicate DecidedFor(repo: Repository, t: Tenant, q: Request)
    requires Loads(repo)
  {
    var r := Rendered(repo, q);
    if !t.lifecycle.Active? && q.operation !in {TeamFinalize, ServiceFinalize} then r == Err(Conflict)
    else
      match TeamObjects(repo, t, q)
      case Some(code) => r == Err(code)
      case None =>
        if !FilesAllow(repo, t, q) then r.Err?
        else if AlreadySo(repo, t, q) then r == Err(Conflict)
        else if MayBeSo(t, q) then r.Ok? || r == Err(Conflict)
        else r.Ok?
  }

  lemma TeamDecides(repo: Repository, i: nat, q: Request)
    requires Healthy(repo) && RequestOk(q) && i < |TenantsOf(repo)| && !q.operation.TeamCreate? && !q.operation.ServiceScaffold? && About(q, TenantsOf(repo)[i])
    ensures DecidedFor(repo, TenantsOf(repo)[i], q)
  {
    hide Healthy, Loads, Execute, RequestOk, Index, Clear, PlanIn, TeamObjects, FilesAllow, AlreadySo, MayBeSo, Rendered;
    assert Loads(repo) by { HealthyLoads(repo); }
    var tenants, t := TenantsOf(repo), TenantsOf(repo)[i];
    OnlyTeam(repo, i);
    RenderedIs(repo, q);
    RefusedIs(repo, tenants, Conflict);
    if t.lifecycle.Active? || AllowsRetiring(q.operation) {
      OperationGuard(repo, i, q);
      var plan := PlanIn(repo, tenants, i, q);
      SucceedsIffClear(repo, plan.actions);
      AlreadyIsUpdate(repo, t, q);
      if TeamObjects(repo, t, q).None? && q.operation in {TeamUpdate, AppUpdate, DatabaseUpdate} {
        UpdateChanges(repo, i, q);
      } else if TeamObjects(repo, t, q).None? && q.operation.ServiceActivate? && !MayBeSo(t, q) {
        ActivationMoves(repo, i, q);
      }
    }
  }

  lemma ActivationMoves(repo: Repository, i: nat, q: Request)
    requires Healthy(repo) && RequestOk(q) && i < |TenantsOf(repo)| && q.operation.ServiceActivate?
    requires TeamObjects(repo, TenantsOf(repo)[i], q).None? && !MayBeSo(TenantsOf(repo)[i], q)
    ensures PlanIn(repo, TenantsOf(repo), i, q).tenants != TenantsOf(repo)
  {
    hide Healthy, RequestOk, TeamObjects, MayBeSo, PlanServiceActivate;
    ActivationChanges(repo, i, q);
  }

  lemma AlreadyIsUpdate(repo: Repository, t: Tenant, q: Request)
    ensures AlreadySo(repo, t, q) ==> q.operation in {TeamUpdate, AppUpdate, DatabaseUpdate}
    ensures q.operation in {TeamUpdate, AppUpdate, DatabaseUpdate} ==> !MayBeSo(t, q)
    ensures Updates(q.operation) <==> q.operation in {TeamUpdate, AppUpdate, DatabaseUpdate, ServiceActivate}
    ensures MayBeSo(t, q) ==> q.operation.ServiceActivate?
    ensures AllowsRetiring(q.operation) <==> q.operation in {TeamFinalize, ServiceFinalize}
  {
  }

  /** From a healthy repository it is decided by the catalog and the files alone
      whether a well-formed request goes through, and what it is refused with. */
  lemma RequestIsDecided(repo: Repository, q: Request)
    requires Healthy(repo) && RequestOk(q)
    ensures var tenants, r := TenantsOf(repo), Rendered(repo, q);
            match q.operation
            case TeamCreate => if exists t <- tenants :: t.name == q.p.name then r == Err(Conflict) else r.Ok?
            case ServiceScaffold =>
              (match ScaffoldObjects(tenants, q.p)
               case Some(code) => r == Err(code)
               case None => if GoldensThere(repo, q.p.template) then r.Ok? else r == Err(Internal))
            case _ => ((forall t <- tenants :: !About(q, t)) ==> r == Err(NotFound)) && forall t <- tenants :: About(q, t) ==> DecidedFor(repo, t, q)
  {
    hide Healthy, Loads, Execute, RequestOk, Index, PlanIn, PlanServiceScaffold, ScaffoldObjects, GoldensThere, DecidedFor, Rendered;
    assert Loads(repo) by { HealthyLoads(repo); }
    var tenants := TenantsOf(repo);
    RenderedIs(repo, q);
    if q.operation.TeamCreate? {
      NamedIs(tenants, q.p.name);
      if Index(tenants, TenantName, q.p.name) < 0 {
        NewTeamWritten(repo, q);
      } else {
        RefusedIs(repo, tenants, Conflict);
      }
    } else if q.operation.ServiceScaffold? {
      ScaffoldGuard(repo, q);
    } else {
      RefusedIs(repo, tenants, NotFound);
      NamedIs(tenants, Target(q));
      forall t <- tenants | About(q, t) ensures DecidedFor(repo, t, q) {
        var i :| 0 <= i < |tenants| && tenants[i] == t;
        TeamDecides(repo, i, q);
      }
    }
  }

  lemma NewTeamWritten(repo: Repository, q: Request)
    requires RequestOk(q) && q.operation.TeamCreate? && Loads(repo) && Index(TenantsOf(repo), TenantName, q.p.name) < 0
    ensures Execute(repo, PlanTeamCreate(TenantsOf(repo), q).actions).Ok? && PlanTeamCreate(TenantsOf(repo), q).tenants != TenantsOf(repo)
  {
    hide Loads, Execute, ValidName, TeamFile, Index, DesiredStateOk, Normalize, IsUuid;
    var plan := PlanTeamCreate(TenantsOf(repo), q);
    assert |plan.tenants| == |TenantsOf(repo)| + 1;
    ClearOne(repo, plan.actions[0]);
    ClearExecutes(repo, plan.actions);
  }
}
