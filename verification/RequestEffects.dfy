/** What a request that was rendered and applied has brought about, in the catalog
    and in the files, operation by operation. */
module RequestEffects {
  import opened Wrappers
  import opened Catalog
  import opened CatalogFacts
  import opened ChangePlan
  import opened ChangeSets
  import opened OverlayFacts
  import opened RenderSafety
  import opened RenderAccounting
  import opened ServiceAccounting
  import opened CatalogPreserved
  import opened OperationSoundness
  import opened ServiceSoundness
  import opened ManifestFields
  import opened RenderRuns
  import opened ScaffoldRoundTrip
  import opened ServiceLifecycle

  // ---------------------------------------------------------------- what can have become of a leaf

  /** Listed active, with this manifest. */
  predicate Delivered(next: Repository, leaf: Leaf, file: File) {
    && Loads(next) && CatalogLists(TenantsOf(next), Listed(leaf, Active, ""))
    && Manifest(leaf) in next && next[Manifest(leaf)] == file
    && Kustomization(leaf) in next && next[Kustomization(leaf)] == KustomizationFile(leaf)
  }

  /** Listed retiring under the request, with the manifest it had and the mark. */
  ghost predicate Withdrawn(repo: Repository, next: Repository, leaf: Leaf, q: Request) {
    && Loads(next) && CatalogLists(TenantsOf(next), Listed(leaf, Retiring, q.id))
    && Manifest(leaf) in repo && Manifest(leaf) in next && MarkedSays(repo[Manifest(leaf)], next[Manifest(leaf)], q.id, q.p.force)
  }

  /** No longer listed, and without its files. */
  predicate Gone(next: Repository, leaf: Leaf) {
    Loads(next) && !HasLeaf(TenantsOf(next), leaf) && Manifest(leaf) !in next && Kustomization(leaf) !in next
  }

  predicate SourceGone(next: Repository, service: string) {
    Loads(next) && !AnyService(TenantsOf(next), service) && !SourceExists(next.Keys, service)
  }

  predicate ListsService(next: Repository, team: string, s: Service) {
    Loads(next) && exists t <- TenantsOf(next) :: t.name == team && s in t.services
  }

  predicate RefersTo(next: Repository, team: string, name: string, ref: string) {
    Loads(next) && exists t <- TenantsOf(next) :: t.name == team && exists a <- t.applications :: a.name == name && a.databaseRef == ref
  }

  /** What belongs to a service of a tenant. */
  predicate Belongs(t: Tenant, s: Service, leaf: Leaf) {
    match leaf
    case AppLeaf(name) => name in s.components && HasEntry(t.applications, name)
    case DatabaseLeaf(name) => s.ownsDatabase && name == s.databaseRef && name != "" && HasEntry(t.databases, name)
    case TeamLeaf(name) => s.ownsTeam && name == t.name
  }

  ghost predicate TeamDelivered(next: Repository, name: string, owners: seq<string>, cpu: string, memory: string, repositories: seq<string>) {
    exists file :: Delivered(next, TeamLeaf(name), file) && TeamSays(file, name, owners, cpu, memory, repositories)
  }

  ghost predicate AppDelivered(next: Repository, p: Parameters) {
    && Delivered(next, AppLeaf(p.name), Protected(p.name, "team-" + p.team, "1", AppSpec(p.owner, p.image, p.tag, p.port, p.min, p.max, true)))
    && RefersTo(next, p.team, p.name, p.databaseRef)
  }

  ghost predicate DatabaseDelivered(next: Repository, p: Parameters, storageClass: string, recovery: Option<Recovery>) {
    Delivered(next, DatabaseLeaf(p.name), DatabaseSays(p.team, p.name, p.instances, p.size, storageClass, p.schedule, p.retention, recovery))
  }

  ghost predicate ComponentDelivered(next: Repository, team: string, s: Service, component: string) {
    exists file :: Delivered(next, AppLeaf(component), file) && ComponentSays(file, team, s, component)
  }

  ghost predicate SourceDelivered(repo: Repository, next: Repository, s: Service, f: SourceFile) {
    Source(s.name, f) in next && next[Source(s.name, f)] == SourceSays(repo, s, f)
  }

  /** What a scaffold lists. */
  ghost function ScaffoldedService(p: Parameters): Service {
    Service(p.name, p.name, p.template, p.version, if p.template == FullStack then [p.name, p.name + "-api"] else [p.name],
            if p.withDatabase then p.name else "", p.createTeam, p.withDatabase, Scaffolded, "")
  }

  /** What the request asked for is what there is now. */
  ghost predicate CarriedOut(repo: Repository, q: Request, next: Repository)
    requires Loads(repo)
  {
    var p, tenants := q.p, TenantsOf(repo);
    match q.operation
    case TeamCreate => TeamDelivered(next, p.name, p.owners, p.cpu, p.memory, p.repositories)
    case TeamUpdate => TeamDelivered(next, p.name, p.owners, p.cpu, p.memory, p.repositories)
    case TeamDelete => exists t <- tenants :: t.name == p.name && forall leaf :: TenantHas(t, leaf) ==> Withdrawn(repo, next, leaf, q)
    case TeamFinalize =>
      exists t <- tenants :: t.name == p.name && (forall leaf :: TenantHas(t, leaf) ==> Gone(next, leaf)) && forall s <- t.services :: SourceGone(next, s.name)
    case AppCreate => AppDelivered(next, p)
    case AppUpdate => AppDelivered(next, p)
    case AppDelete => Withdrawn(repo, next, AppLeaf(p.name), q)
    case AppFinalize => Gone(next, AppLeaf(p.name))
    case DatabaseCreate => DatabaseDelivered(next, p, "local-path", None)
    case DatabaseRestore => DatabaseDelivered(next, p, "local-path", Some(Recovery(p.source, p.target)))
    case DatabaseUpdate =>
      var path := Manifest(DatabaseLeaf(p.name));
      && path in repo && Stored(repo[path]) && p.size.amount.Some? && StorageAmount(repo[path]) <= p.size.amount.value
      && DatabaseDelivered(next, p, repo[path].spec.storage.value.storageClass, repo[path].spec.recovery)
    case DatabaseDelete => Withdrawn(repo, next, DatabaseLeaf(p.name), q)
    case DatabaseFinalize => Gone(next, DatabaseLeaf(p.name))
    case ServiceScaffold =>
      && ListsService(next, p.team, ScaffoldedService(p)) && (forall f :: Generates(p.template, f) ==> SourceDelivered(repo, next, ScaffoldedService(p), f))
      && (p.withDatabase ==>
            Delivered(next, DatabaseLeaf(p.name), DatabaseSays(p.team, p.name, 1, Size("1Gi", Some(1073741824)), "local-path", "0 0 2 * * *", "7d", None)))
      && (p.createTeam ==> TeamDelivered(next, p.team, [p.team + "-owners"], "2", "4Gi", ["ghcr.io/saadabdullaah/steadystate-services"]))
    case ServiceActivate =>
      exists t <- tenants, s <- t.services :: t.name == p.team && s.name == p.name && ActiveAt(repo, next, p.team, s.(version := p.version, lifecycle := Active))
    case ServiceRetire =>
      exists t <- tenants, s <- t.services :: t.name == p.team && s.name == p.name && ListsService(next, p.team, s.(lifecycle := Retiring, request := q.id))
        && forall leaf :: Belongs(t, s, leaf) ==> Withdrawn(repo, next, leaf, q)
    case ServiceFinalize =>
      exists t <- tenants, s <- t.services :: t.name == p.team && s.name == p.name && SourceGone(next, p.name)
        && forall leaf :: Belongs(t, s, leaf) ==> Gone(next, leaf)
  }

  /** Listed active; its components and its two version files are those of its version. */
  ghost predicate ActiveAt(repo: Repository, next: Repository, team: string, s: Service) {
    && ListsService(next, team, s) && (forall c <- s.components :: ComponentDelivered(next, team, s, c))
    && SourceDelivered(repo, next, s, VersionFile) && SourceDelivered(repo, next, s, Descriptor)
  }

  // ---------------------------------------------------------------- a step and its plan

  ghost predicate Planned(repo: Repository, q: Request, next: Repository, plan: Plan) {
    && Healthy(repo) && RequestOk(q) && Execute(repo, plan.actions).Ok? && next == FilesAfter(repo, plan)
    && Loads(next) && TenantsOf(next) == plan.tenants && Unanimous(plan.actions) && AllWrites(plan.actions)
  }

  lemma StepPlanned(repo: Repository, q: Request, next: Repository)
    requires Healthy(repo) && Step(repo, q, next)
    ensures Planned(repo, q, next, PlanOf(repo, TenantsOf(repo), q)) && GapFree(TenantsOf(repo), q)
  {
    hide Execute, Consistent, RequestOk, PlanOf, FilesAfter, GapFree, Rendered, View, Valid, Unanimous, AllWrites;
    StepIsPlan(repo, q, next);
    StepIsHealthy(repo, q, next);
    PlanAgrees(repo, q);
    SucceededWrites(repo, PlanOf(repo, TenantsOf(repo), q).actions);
  }

  /** Operations on a listed team. */
  lemma PlanOfTarget(repo: Repository, q: Request, next: Repository) returns (i: nat)
    requires Loads(repo) && Planned(repo, q, next, PlanOf(repo, TenantsOf(repo), q)) && !q.operation.TeamCreate? && !q.operation.ServiceScaffold?
    ensures i < |TenantsOf(repo)| && TenantsOf(repo)[i].name == Target(q) && PlanOf(repo, TenantsOf(repo), q) == PlanIn(repo, TenantsOf(repo), i, q)
    ensures Planned(repo, q, next, PlanIn(repo, TenantsOf(repo), i, q)) && (AllowsRetiring(q.operation) || TenantsOf(repo)[i].lifecycle.Active?)
    ensures Separate(TenantsOf(repo)) && Derived(TenantsOf(repo)) && (forall t <- TenantsOf(repo) :: Shape(t))
  {
    hide Execute, Consistent, RequestOk, PlanIn, FilesAfter, Valid, Unanimous, Index, Separate, Derived, Shape;
    var tenants := TenantsOf(repo);
    RefusalFails(tenants, Conflict);
    RefusalFails(tenants, NotFound);
    i := Index(tenants, TenantName, Target(q));
    ValidHasShape(repo.Keys, tenants);
    UniqueIsSeparate(tenants);
  }

  // ---------------------------------------------------------------- one leaf

  lemma WriteDelivers(repo: Repository, q: Request, next: Repository, plan: Plan, leaf: Leaf, file: File, t: Tenant)
    requires Planned(repo, q, next, plan) && WriteLeaf(leaf, file) in plan.actions && t in plan.tenants && TenantLists(t, Listed(leaf, Active, ""))
    ensures Delivered(next, leaf, file)
  {
    hide Execute, RequestOk, FilesAfter, Unanimous, Healthy, Loads, TenantLists;
    WrittenLeafAfter(repo, plan, leaf, file);
    KustomizationWritten(repo, plan, leaf, file);
  }

  lemma ApprovalWithdraws(repo: Repository, q: Request, next: Repository, plan: Plan, leaf: Leaf, t: Tenant)
    requires Planned(repo, q, next, plan) && Approve(leaf, q.id, q.p.force) in plan.actions && t in plan.tenants && TenantLists(t, Listed(leaf, Retiring, q.id))
    ensures Withdrawn(repo, next, leaf, q)
  {
    hide Execute, RequestOk, FilesAfter, Unanimous, Healthy, Loads, TenantLists, MarkedSays;
    MarkedLeafAfter(repo, plan, leaf, q.id, q.p.force);
    MarkedIsMarked(repo[Manifest(leaf)], q.id, q.p.force);
  }

  lemma DropMakesGone(repo: Repository, q: Request, next: Repository, plan: Plan, leaf: Leaf)
    requires Planned(repo, q, next, plan) && DropLeaf(leaf) in plan.actions && !HasLeaf(plan.tenants, leaf)
    ensures Gone(next, leaf)
  {
    hide Execute, RequestOk, FilesAfter, Unanimous, Healthy, Loads, HasLeaf;
    DroppedLeaf(repo, plan, leaf);
  }

  lemma ListsEntry(t: Tenant, databases: bool, e: Entry)
    requires e in EntriesOf(t, databases)
    ensures TenantLists(t, Listed(LeafOf(e.name, databases), e.lifecycle, e.request)) && TenantHas(t, LeafOf(e.name, databases))
  {
  }

  lemma AddedIsThere(entries: seq<Entry>, e: Entry)
    ensures e in AddEntry(entries, e)
  {
    hide SortBy;
    SortedMembers(entries + [e], EntryName, e);
  }

  /** Active entries of a valid catalog carry no request. */
  lemma ActiveHasNoRequest(t: Tenant, databases: bool, j: nat)
    requires Shape(t) && j < |EntriesOf(t, databases)| && EntriesOf(t, databases)[j].lifecycle.Active?
    ensures EntriesOf(t, databases)[j].request == ""
  {
    EntriesOfShape(t, j);
  }

  /** With the entry removed from its tenant nobody lists the leaf. */
  lemma RemovedIsUnlisted(tenants: seq<Tenant>, i: nat, databases: bool, name: string)
    requires Separate(tenants) && i < |tenants| && HasEntry(EntriesOf(tenants[i], databases), name)
    ensures !HasLeaf(tenants[i := WithEntries(tenants[i], databases, Without(EntriesOf(tenants[i], databases), EntryName, [name]))], LeafOf(name, databases))
  {
    hide Without;
    var after := tenants[i := WithEntries(tenants[i], databases, Without(EntriesOf(tenants[i], databases), EntryName, [name]))];
    assert TenantHas(tenants[i], LeafOf(name, databases));
    OwnLeaf(tenants, i, LeafOf(name, databases));
    RemovedEntry(EntriesOf(tenants[i], databases), name);
    forall k | 0 <= k < |after| ensures !TenantHas(after[k], LeafOf(name, databases)) {
    }
  }

  // ---------------------------------------------------------------- teams

  lemma TeamCreated(repo: Repository, q: Request, next: Repository)
    requires Loads(repo) && q.operation.TeamCreate? && Planned(repo, q, next, PlanTeamCreate(TenantsOf(repo), q))
    ensures CarriedOut(repo, q, next)
  {
    hide Execute, RequestOk, FilesAfter, Unanimous, Healthy, Loads, Index, TeamFile, TeamSays, SortBy;
    RefusalFails(TenantsOf(repo), Conflict);
    var plan, team := PlanTeamCreate(TenantsOf(repo), q), NewTenant(q.p.name, q.p.owners);
    assert team in plan.tenants;
    WriteDelivers(repo, q, next, plan, TeamLeaf(q.p.name), TeamFile(q.p.name, q.p), team);
    TeamFileSays(q.p.name, q.p);
  }

  lemma TeamUpdated(repo: Repository, q: Request, next: Repository, i: nat)
    requires Loads(repo) && i < |TenantsOf(repo)| && q.operation.TeamUpdate? && Planned(repo, q, next, PlanTeamUpdate(TenantsOf(repo), i, q))
    requires TenantsOf(repo)[i].name == q.p.name && TenantsOf(repo)[i].lifecycle.Active? && Shape(TenantsOf(repo)[i])
    ensures CarriedOut(repo, q, next)
  {
    hide Execute, RequestOk, FilesAfter, Unanimous, Healthy, Loads, TeamFile, TeamSays, SortBy, ValidName, OwnersOk;
    var plan := PlanTeamUpdate(TenantsOf(repo), i, q);
    assert plan.tenants[i] in plan.tenants;
    WriteDelivers(repo, q, next, plan, TeamLeaf(q.p.name), TeamFile(q.p.name, q.p), plan.tenants[i]);
    TeamFileSays(q.p.name, q.p);
  }

  lemma TeamDeleted(repo: Repository, q: Request, next: Repository, i: nat)
    requires Loads(repo) && i < |TenantsOf(repo)| && q.operation.TeamDelete? && Planned(repo, q, next, PlanTeamDelete(TenantsOf(repo), i, q))
    requires TenantsOf(repo)[i].name == q.p.name
    ensures CarriedOut(repo, q, next)
  {
    hide Execute, RequestOk, FilesAfter, Unanimous, Healthy, Loads, Withdrawn;
    var plan, t := PlanTeamDelete(TenantsOf(repo), i, q), TenantsOf(repo)[i];
    assert plan.tenants[i] in plan.tenants && t in TenantsOf(repo);
    forall leaf | TenantHas(t, leaf) ensures Withdrawn(repo, next, leaf, q) {
      DeletedLeaf(t, q, leaf);
      ApprovalWithdraws(repo, q, next, plan, leaf, plan.tenants[i]);
    }
  }

  lemma DeletedLeaf(t: Tenant, q: Request, leaf: Leaf)
    requires TenantHas(t, leaf) && t.name == q.p.name
    ensures TenantLists(RetireTenant(t, q.id), Listed(leaf, Retiring, q.id))
    ensures Approve(leaf, q.id, q.p.force) in
              [Approve(TeamLeaf(q.p.name), q.id, q.p.force)] + Approvals(t.applications, false, q) + Approvals(t.databases, true, q)
  {
    if !leaf.TeamLeaf? {
      var entries, retired := EntriesOf(t, leaf.DatabaseLeaf?), RetireEntries(EntriesOf(t, leaf.DatabaseLeaf?), q.id);
      var k :| 0 <= k < |entries| && entries[k].name == leaf.name;
      assert retired[k] in retired;
      assert Approvals(entries, leaf.DatabaseLeaf?, q)[k] in Approvals(entries, leaf.DatabaseLeaf?, q);
    }
  }

  lemma TeamFinalized(repo: Repository, q: Request, next: Repository, i: nat)
    requires Loads(repo) && i < |TenantsOf(repo)| && q.operation.TeamFinalize? && Planned(repo, q, next, PlanTeamFinalize(TenantsOf(repo), i, q))
    requires TenantsOf(repo)[i].name == q.p.name && Separate(TenantsOf(repo)) && Derived(TenantsOf(repo)) && forall t <- TenantsOf(repo) :: Shape(t)
    ensures CarriedOut(repo, q, next)
  {
    hide Execute, RequestOk, FilesAfter, Unanimous, Healthy, Loads, Gone, SourceGone, Separate, Derived, Shape, Without, Drops, SourceDrops;
    var tenants := TenantsOf(repo);
    RefusalFails(tenants, Conflict);
    var plan, t := PlanTeamFinalize(tenants, i, q), tenants[i];
    OwnPaths(tenants, t);
    forall leaf | TenantHas(t, leaf) ensures Gone(next, leaf) {
      FinalizedLeaf(t, q, leaf);
      WithoutTeamUnlisted(tenants, i, leaf);
      DropMakesGone(repo, q, next, plan, leaf);
    }
    forall s | s in t.services ensures SourceGone(next, s.name) {
      FinalizedService(t, s);
      assert DropSource(s) in plan.actions;
      WithoutTeamNoService(tenants, i, s.name);
      DropEndsSource(repo, q, next, plan, s);
    }
  }

  lemma FinalizedLeaf(t: Tenant, q: Request, leaf: Leaf)
    requires TenantHas(t, leaf) && t.name == q.p.name
    requires (forall e <- t.applications :: e.path == AppLeaf(e.name)) && forall d <- t.databases :: d.path == DatabaseLeaf(d.name)
    ensures DropLeaf(leaf) in [DropLeaf(TeamLeaf(q.p.name))] + Drops(t.applications) + Drops(t.databases) + SourceDrops(t.services)
  {
    if !leaf.TeamLeaf? {
      var entries := EntriesOf(t, leaf.DatabaseLeaf?);
      var k :| 0 <= k < |entries| && entries[k].name == leaf.name;
      assert Drops(entries)[k] in Drops(entries);
    }
  }

  lemma FinalizedService(t: Tenant, s: Service)
    requires s in t.services
    ensures DropSource(s) in SourceDrops(t.services)
  {
    var k :| 0 <= k < |t.services| && t.services[k] == s;
    assert SourceDrops(t.services)[k] in SourceDrops(t.services);
  }

  lemma WithoutTeamUnlisted(tenants: seq<Tenant>, i: nat, leaf: Leaf)
    requires Separate(tenants) && i < |tenants| && TenantHas(tenants[i], leaf)
    ensures !HasLeaf(Without(tenants, TenantName, [tenants[i].name]), leaf)
  {
    hide Without, TenantHas;
    OwnLeaf(tenants, i, leaf);
    forall t | t in Without(tenants, TenantName, [tenants[i].name]) ensures !TenantHas(t, leaf) {
      assert TenantName(t) !in [tenants[i].name] && t in tenants;
    }
  }

  lemma WithoutTeamNoService(tenants: seq<Tenant>, i: nat, name: string)
    requires Separate(tenants) && i < |tenants| && TenantHasService(tenants[i], name)
    ensures !AnyService(Without(tenants, TenantName, [tenants[i].name]), name)
  {
    hide Without, DistinctBy, TenantHas;
    forall t | t in Without(tenants, TenantName, [tenants[i].name]) ensures !TenantHasService(t, name) {
      assert TenantName(t) !in [tenants[i].name] && t in tenants;
      var k :| 0 <= k < |tenants| && tenants[k] == t;
    }
  }

  lemma DropEndsSource(repo: Repository, q: Request, next: Repository, plan: Plan, s: Service)
    requires Planned(repo, q, next, plan) && DropSource(s) in plan.actions && s.path == s.name && !AnyService(plan.tenants, s.name)
    ensures SourceGone(next, s.name)
  {
    hide Execute, RequestOk, FilesAfter, Unanimous, Healthy, Loads, AnyService;
    forall path | path in next && path.Source? ensures path.service != s.name {
      if path.service == s.name {
        if path in repo {
          DroppedSource(repo, plan, s, path);
        } else {
          var a := SourceCreated(repo, plan, path);
          OneSource(plan.actions, a, s);
        }
      }
    }
  }

  lemma OneSource(actions: seq<Action>, a: Action, s: Service)
    requires Unanimous(actions) && a in actions && DropSource(s) in actions && ActionSource(a) == Some(s.path)
    ensures a == DropSource(s)
  {
  }

  // ---------------------------------------------------------------- applications and databases

  lemma EntryCreated(repo: Repository, q: Request, next: Repository, i: nat, databases: bool, ref: string, file: File)
    requires Loads(repo) && i < |TenantsOf(repo)|
    requires var entries := AddEntry(EntriesOf(TenantsOf(repo)[i], databases), NewEntry(LeafOf(q.p.name, databases), ref));
             Planned(repo, q, next, Plan(TenantsOf(repo)[i := WithEntries(TenantsOf(repo)[i], databases, entries)], [WriteLeaf(LeafOf(q.p.name, databases), file)]))
    ensures Delivered(next, LeafOf(q.p.name, databases), file) && (!databases ==> RefersTo(next, TenantsOf(repo)[i].name, q.p.name, ref))
  {
    hide Execute, RequestOk, FilesAfter, Unanimous, Healthy, Loads, AddEntry, Delivered;
    var t, e := TenantsOf(repo)[i], NewEntry(LeafOf(q.p.name, databases), ref);
    var after := WithEntries(t, databases, AddEntry(EntriesOf(t, databases), e));
    var plan := Plan(TenantsOf(repo)[i := after], [WriteLeaf(LeafOf(q.p.name, databases), file)]);
    assert after == plan.tenants[i];
    AddedIsThere(EntriesOf(t, databases), e);
    ListsEntry(after, databases, e);
    WriteDelivers(repo, q, next, plan, LeafOf(q.p.name, databases), file, after);
  }

  lemma EntryUpdated(repo: Repository, q: Request, next: Repository, i: nat, databases: bool, j: nat, e: Entry, file: File)
    requires Loads(repo) && i < |TenantsOf(repo)| && Shape(TenantsOf(repo)[i]) && j < |EntriesOf(TenantsOf(repo)[i], databases)|
    requires var was := EntriesOf(TenantsOf(repo)[i], databases)[j];
             was.lifecycle.Active? && was.name == q.p.name && e == was.(databaseRef := e.databaseRef)
    requires Planned(repo, q, next, Plan(TenantsOf(repo)[i := WithEntries(TenantsOf(repo)[i], databases, EntriesOf(TenantsOf(repo)[i], databases)[j := e])],
                                         [WriteLeaf(LeafOf(q.p.name, databases), file)]))
    ensures Delivered(next, LeafOf(q.p.name, databases), file) && (!databases ==> RefersTo(next, TenantsOf(repo)[i].name, q.p.name, e.databaseRef))
  {
    hide Execute, RequestOk, FilesAfter, Unanimous, Healthy, Loads, Delivered, Shape;
    var t := TenantsOf(repo)[i];
    var after := WithEntries(t, databases, EntriesOf(t, databases)[j := e]);
    var plan := Plan(TenantsOf(repo)[i := after], [WriteLeaf(LeafOf(q.p.name, databases), file)]);
    assert after == plan.tenants[i] && EntriesOf(after, databases)[j] == e;
    ActiveHasNoRequest(t, databases, j);
    ListsEntry(after, databases, e);
    WriteDelivers(repo, q, next, plan, LeafOf(q.p.name, databases), file, after);
  }

  lemma EntryDeleted(repo: Repository, q: Request, next: Repository, i: nat, databases: bool, j: nat)
    requires Loads(repo) && i < |TenantsOf(repo)| && j < |EntriesOf(TenantsOf(repo)[i], databases)|
    requires EntriesOf(TenantsOf(repo)[i], databases)[j].name == q.p.name
    requires var entries := EntriesOf(TenantsOf(repo)[i], databases);
             Planned(repo, q, next, Plan(TenantsOf(repo)[i := WithEntries(TenantsOf(repo)[i], databases, entries[j := Retired(entries[j], q.id)])],
                                         [Approve(LeafOf(q.p.name, databases), q.id, q.p.force)]))
    ensures Withdrawn(repo, next, LeafOf(q.p.name, databases), q)
  {
    hide Execute, RequestOk, FilesAfter, Unanimous, Healthy, Loads, Withdrawn;
    var t, entries := TenantsOf(repo)[i], EntriesOf(TenantsOf(repo)[i], databases);
    var after := WithEntries(t, databases, entries[j := Retired(entries[j], q.id)]);
    var plan := Plan(TenantsOf(repo)[i := after], [Approve(LeafOf(q.p.name, databases), q.id, q.p.force)]);
    assert after == plan.tenants[i] && EntriesOf(after, databases)[j] == Retired(entries[j], q.id);
    ListsEntry(after, databases, Retired(entries[j], q.id));
    ApprovalWithdraws(repo, q, next, plan, LeafOf(q.p.name, databases), after);
  }

  lemma EntryFinalized(repo: Repository, q: Request, next: Repository, i: nat, databases: bool, j: nat)
    requires Loads(repo) && i < |TenantsOf(repo)| && j < |EntriesOf(TenantsOf(repo)[i], databases)| && Separate(TenantsOf(repo))
    requires var e := EntriesOf(TenantsOf(repo)[i], databases)[j]; e.name == q.p.name && e.path == LeafOf(e.name, databases)
    requires var entries := EntriesOf(TenantsOf(repo)[i], databases);
             Planned(repo, q, next, Plan(TenantsOf(repo)[i := WithEntries(TenantsOf(repo)[i], databases, Without(entries, EntryName, [q.p.name]))],
                                         [DropLeaf(entries[j].path)]))
    ensures Gone(next, LeafOf(q.p.name, databases))
  {
    hide Execute, RequestOk, FilesAfter, Unanimous, Healthy, Loads, Gone, Without, Separate;
    var t, entries := TenantsOf(repo)[i], EntriesOf(TenantsOf(repo)[i], databases);
    var plan := Plan(TenantsOf(repo)[i := WithEntries(t, databases, Without(entries, EntryName, [q.p.name]))], [DropLeaf(entries[j].path)]);
    assert entries[j] in entries;
    RemovedIsUnlisted(TenantsOf(repo), i, databases, q.p.name);
    DropMakesGone(repo, q, next, plan, LeafOf(q.p.name, databases));
  }

  // ---------------------------------------------------------------- scaffold and activate

  lemma ScaffoldDelivers(repo: Repository, q: Request, next: Repository, plan: Plan, base: Tenant)
    requires Planned(repo, q, next, plan) && base.name == q.p.team && WithService(base, q.p) in plan.tenants && forall a <- ScaffoldActions(q.p) :: a in plan.actions
    ensures ListsService(next, q.p.team, ScaffoldedService(q.p))
    ensures forall f :: Generates(q.p.template, f) ==> SourceDelivered(repo, next, ScaffoldedService(q.p), f)
    ensures q.p.withDatabase ==> Delivered(next, DatabaseLeaf(q.p.name), ScaffoldActions(q.p)[0].manifest)
  {
    hide Execute, RequestOk, FilesAfter, Unanimous, Healthy, Loads, SortBy, SourceFiles, ServiceTeam, ServiceDatabase, DatabaseManifest, Delivered,
         SourceContent, SourceSays, Generates;
    var p, t := q.p, WithService(base, q.p);
    ScaffoldActionsAre(p);
    SortedMembers(base.services + [NewService(p)], ServiceName, NewService(p));
    assert NewService(p) == ScaffoldedService(p);
    TemplateGenerates(p.template);
    forall f | Generates(p.template, f) ensures SourceDelivered(repo, next, ScaffoldedService(p), f) {
      SourceWritten(repo, plan, NewService(p), f);
      SourceContentSays(repo, NewService(p), f);
    }
    if p.withDatabase {
      AddedIsThere(base.databases, NewEntry(DatabaseLeaf(p.name), ""));
      ListsEntry(t, true, NewEntry(DatabaseLeaf(p.name), ""));
      WriteDelivers(repo, q, next, plan, DatabaseLeaf(p.name), ScaffoldActions(p)[0].manifest, t);
    }
  }

  lemma ServiceScaffolded(repo: Repository, q: Request, next: Repository)
    requires Loads(repo) && q.operation.ServiceScaffold? && Planned(repo, q, next, PlanServiceScaffold(TenantsOf(repo), q)) && UniqueNames(AllNames(TenantsOf(repo)))
    ensures CarriedOut(repo, q, next)
  {
    hide Execute, RequestOk, FilesAfter, Unanimous, Healthy, Loads, Index, SortBy, SourceFiles, ServiceTeam, TeamFile, ScaffoldActions, WithService, Delivered,
         ListsService, UniqueNames, AllNames, AnyService, DatabaseActive, ScaffoldedService, SourceDelivered, Generates, TeamSays, DatabaseSays;
    var p, tenants := q.p, TenantsOf(repo);
    ScaffoldSays(p);
    var plan, i := PlanServiceScaffold(tenants, q), Index(tenants, TenantName, p.team);
    RefusalFails(tenants, Conflict);
    RefusalFails(tenants, NotFound);
    if i >= 0 {
      FailsLast([]);
      assert plan.tenants[i] in plan.tenants;
      ScaffoldDelivers(repo, q, next, plan, tenants[i]);
    } else {
      var team := NewTenant(p.team, ServiceTeam(p).owners);
      var k := NewTeamAt(tenants, team);
      NoDatabases(team, p.name);
      assert plan.tenants[k] == WithService(team, p);
      assert plan.actions == [WriteLeaf(TeamLeaf(p.team), TeamFile(p.team, ServiceTeam(p)))] + ScaffoldActions(p);
      ScaffoldDelivers(repo, q, next, plan, team);
      TeamStaysListed(team, p);
      WriteDelivers(repo, q, next, plan, TeamLeaf(p.team), TeamFile(p.team, ServiceTeam(p)), plan.tenants[k]);
    }
  }

  /** The team and the database a scaffold brings. */
  lemma ScaffoldSays(p: Parameters)
    ensures TeamSays(TeamFile(p.team, ServiceTeam(p)), p.team, [p.team + "-owners"], "2", "4Gi", ["ghcr.io/saadabdullaah/steadystate-services"])
    ensures p.withDatabase ==>
              ScaffoldActions(p)[0].WriteLeaf?
              && ScaffoldActions(p)[0].manifest == DatabaseSays(p.team, p.name, 1, Size("1Gi", Some(1073741824)), "local-path", "0 0 2 * * *", "7d", None)
  {
    hide TeamSays, TeamFile;
    TeamFileSays(p.team, ServiceTeam(p));
  }

  lemma TeamStaysListed(team: Tenant, p: Parameters)
    requires team.lifecycle.Active? && team.request == ""
    ensures TenantLists(WithService(team, p), Listed(TeamLeaf(team.name), Active, ""))
  {
    hide SortBy;
  }

  lemma ServiceActivated(repo: Repository, q: Request, next: Repository, i: nat)
    requires Loads(repo) && i < |TenantsOf(repo)| && q.operation.ServiceActivate? && Planned(repo, q, next, PlanServiceActivate(TenantsOf(repo), i, q))
    requires TenantsOf(repo)[i].name == q.p.team && Separate(TenantsOf(repo)) && Shape(TenantsOf(repo)[i])
    ensures CarriedOut(repo, q, next)
  {
    hide Execute, RequestOk, FilesAfter, Unanimous, Healthy, Loads, Index, SortBy, WithComponents, ComponentActions, Separate, Shape, ComponentFile, Delivered,
         Activated, DistinctBy, ComponentEntry, ComponentSays, SourceDelivered;
    var tenants := TenantsOf(repo);
    RefusalFails(tenants, Conflict);
    RefusalFails(tenants, NotFound);
    var plan, t, j := PlanServiceActivate(tenants, i, q), tenants[i], Index(tenants[i].services, ServiceName, q.p.name);
    var s := t.services[j].(version := q.p.version);
    var after, writes := WithComponents(t.applications, s, s.components), ComponentActions(q.p.team, t.applications, s, s.components);
    SeparateTenant(tenants, i);
    assert forall a <- writes :: a in plan.actions;
    ComponentsActivate(t.applications, q.p.team, s, s.components);
    ApplicationsOfShape(t);
    ComponentEntries(t, t.applications, q.p.team, s, s.components);
    var changed := plan.tenants[i];
    assert changed in plan.tenants && changed.services[j] in changed.services && t in tenants && t.services[j] in t.services;
    var active := s.(lifecycle := Active);
    OfferedService(repo, t, t.services[j], q);
    forall c | c in s.components ensures ComponentDelivered(next, q.p.team, active, c) {
      ComponentListed(t, after, writes, q.p.team, s, c, changed);
      WriteDelivers(repo, q, next, plan, AppLeaf(c), ComponentFile(q.p.team, s, c), changed);
      ComponentFileSays(q.p.team, active, c);
      SameComponent(q.p.team, s, c);
    }
    assert plan.actions[|plan.actions| - 1] == WriteVersion(active);
    VersionDelivered(repo, q, next, plan, active, VersionFile);
    VersionDelivered(repo, q, next, plan, active, Descriptor);
    assert active == t.services[j].(version := q.p.version, lifecycle := Active);
    assert ActiveAt(repo, next, q.p.team, active);
  }

  /** What is known of a listed service. */
  lemma OfferedService(repo: Repository, t: Tenant, s: Service, q: Request)
    requires Loads(repo) && t in TenantsOf(repo) && s in t.services && RequestOk(q) && q.operation.ServiceActivate?
    ensures q.p.version.Version? && s.components == TemplateComponents(s.name, s.template) && !s.template.NoTemplate? && s.path == s.name
  {
    hide UniqueNames, AllNames, ValidName, IsUuid, OwnersOk, HasEntry, DesiredStateOk;
    assert TenantOk(repo.Keys, t);
  }

  /** The application of a component does not depend on the lifecycle of its service. */
  lemma SameComponent(team: string, s: Service, c: string)
    ensures ComponentFile(team, s, c) == ComponentFile(team, s.(lifecycle := Active), c)
  {
  }

  lemma VersionDelivered(repo: Repository, q: Request, next: Repository, plan: Plan, s: Service, f: SourceFile)
    requires Planned(repo, q, next, plan) && WriteVersion(s) in plan.actions && s.path == s.name && (f == VersionFile || f == Descriptor)
    ensures SourceDelivered(repo, next, s, f)
  {
    hide Execute, RequestOk, FilesAfter, Unanimous, Healthy, Loads, SourceContent, SourceSays;
    VersionWritten(repo, plan, s, f);
    SourceContentSays(repo, s, f);
  }

  lemma ComponentListed(t: Tenant, after: seq<Entry>, writes: seq<Action>, team: string, s: Service, c: string, changed: Tenant)
    requires Activated(t.applications, after, writes, team, s, s.components) && c in s.components && changed.applications == SortBy(after, EntryName)
    requires forall e <- after :: LifecycleOk(e.lifecycle, e.request)
    ensures TenantLists(changed, Listed(AppLeaf(c), Active, "")) && WriteLeaf(AppLeaf(c), ComponentFile(team, s, c)) in writes
  {
    hide SortBy, ComponentFile;
    var e :| e in after && e.name == c;
    SortedMembers(after, EntryName, e);
  }

  // ---------------------------------------------------------------- retire and finalize

  lemma ServiceRetired(repo: Repository, q: Request, next: Repository, i: nat)
    requires Loads(repo) && i < |TenantsOf(repo)| && q.operation.ServiceRetire? && Planned(repo, q, next, PlanServiceRetire(TenantsOf(repo), i, q))
    requires TenantsOf(repo)[i].name == q.p.team && Separate(TenantsOf(repo))
    ensures CarriedOut(repo, q, next)
  {
    hide Execute, RequestOk, FilesAfter, Unanimous, Healthy, Loads, Index, RetireService, ApproveNamed, OwnedDatabase, Separate, Withdrawn, Belongs;
    var tenants := TenantsOf(repo);
    RefusalFails(tenants, Conflict);
    RefusalFails(tenants, NotFound);
    var plan, t, j := PlanServiceRetire(tenants, i, q), tenants[i], Index(tenants[i].services, ServiceName, q.p.name);
    var s := t.services[j];
    RetirementActions(tenants, i, j, q);
    SeparateTenant(tenants, i);
    RetiredServiceListed(t, j, q.id);
    assert plan.tenants[i] in plan.tenants && t in tenants && s in t.services;
    forall leaf | Belongs(t, s, leaf) ensures Withdrawn(repo, next, leaf, q) {
      BelongingRetires(t, j, q, leaf, plan.actions);
      ApprovalWithdraws(repo, q, next, plan, leaf, plan.tenants[i]);
    }
  }

  lemma RetiredServiceListed(t: Tenant, j: nat, id: string)
    requires j < |t.services|
    ensures RetireService(t, j, id).name == t.name && RetiredService(t.services[j], id) in RetireService(t, j, id).services
  {
    hide RetireNamed, OwnedDatabase;
    assert RetireService(t, j, id).services[j] == RetiredService(t.services[j], id);
  }

  lemma BelongingRetires(t: Tenant, j: nat, q: Request, leaf: Leaf, actions: seq<Action>)
    requires j < |t.services| && Belongs(t, t.services[j], leaf) && DistinctBy(t.applications, EntryName)
    requires var s, k := t.services[j], OwnedDatabase(t, t.services[j]);
             && (forall e <- t.applications :: e.name in s.components ==> Approve(AppLeaf(e.name), q.id, q.p.force) in actions)
             && (k >= 0 ==> Approve(DatabaseLeaf(t.databases[k].name), q.id, q.p.force) in actions)
             && (s.ownsTeam ==> Approve(TeamLeaf(t.name), q.id, q.p.force) in actions)
    ensures Approve(leaf, q.id, q.p.force) in actions && TenantLists(RetireService(t, j, q.id), Listed(leaf, Retiring, q.id))
  {
    hide RetireNamed, Index, DistinctBy;
    var s, after := t.services[j], RetireService(t, j, q.id);
    if leaf.AppLeaf? {
      NamesRetire(t.applications, s.components, q.id);
      var e :| e in t.applications && e.name == leaf.name;
      var m :| 0 <= m < |t.applications| && t.applications[m] == e;
      assert after.applications[m] in after.applications;
    } else if leaf.DatabaseLeaf? {
      OwnedIs(t, s, leaf.name);
      var k := OwnedDatabase(t, s);
      assert after.databases[k] in after.databases;
    }
  }

  lemma OwnedIs(t: Tenant, s: Service, name: string)
    requires s.ownsDatabase && name == s.databaseRef && name != "" && HasEntry(t.databases, name)
    ensures OwnedDatabase(t, s) >= 0 && t.databases[OwnedDatabase(t, s)].name == name
  {
    hide Index;
    FoundBy(t.databases, EntryName, name);
    var e :| e in t.databases && e.name == name;
    var k :| 0 <= k < |t.databases| && t.databases[k] == e;
    assert EntryName(t.databases[k]) == name;
  }

  lemma ServiceFinalized(repo: Repository, q: Request, next: Repository, i: nat)
    requires Loads(repo) && i < |TenantsOf(repo)| && q.operation.ServiceFinalize? && Planned(repo, q, next, PlanServiceFinalize(TenantsOf(repo), i, q))
    requires TenantsOf(repo)[i].name == q.p.team && Separate(TenantsOf(repo)) && Derived(TenantsOf(repo))
    ensures CarriedOut(repo, q, next)
  {
    hide Execute, RequestOk, FilesAfter, Unanimous, Healthy, Loads, Index, DropNamed, OwnedDatabase, Separate, Derived, Gone, SourceGone, Belongs, Without,
         FinalizeService, TenantHas, HasLeaf;
    var tenants := TenantsOf(repo);
    RefusalFails(tenants, Conflict);
    RefusalFails(tenants, NotFound);
    var plan, t, j := PlanServiceFinalize(tenants, i, q), tenants[i], Index(tenants[i].services, ServiceName, q.p.name);
    var s := t.services[j];
    assert t in tenants && s in t.services && s.name == q.p.name;
    OwnPaths(tenants, t);
    FinalizationActions(repo, tenants, i, j, q);
    forall leaf | Belongs(t, s, leaf) ensures Gone(next, leaf) {
      BelongingDrops(t, s, leaf, plan.actions);
      BelongingUnlisted(tenants, i, s, leaf);
      DropMakesGone(repo, q, next, plan, leaf);
    }
    ServiceUnlisted(tenants, i, s);
    DropEndsSource(repo, q, next, plan, s);
  }

  lemma BelongingDrops(t: Tenant, s: Service, leaf: Leaf, actions: seq<Action>)
    requires Belongs(t, s, leaf)
    requires var k := OwnedDatabase(t, s);
             && (forall e <- t.applications :: e.name in s.components ==> DropLeaf(AppLeaf(e.name)) in actions)
             && (k >= 0 ==> DropLeaf(DatabaseLeaf(t.databases[k].name)) in actions) && (s.ownsTeam ==> DropLeaf(TeamLeaf(t.name)) in actions)
    ensures DropLeaf(leaf) in actions && TenantHas(t, leaf)
  {
    hide Index;
    if leaf.DatabaseLeaf? {
      OwnedIs(t, s, leaf.name);
    }
  }

  /** The tenants a finalization leaves. */
  function Remaining(tenants: seq<Tenant>, i: nat, s: Service): seq<Tenant>
    requires i < |tenants|
  {
    if s.ownsTeam then Without(tenants, TenantName, [tenants[i].name]) else tenants[i := FinalizeService(tenants[i], s)]
  }

  lemma BelongingUnlisted(tenants: seq<Tenant>, i: nat, s: Service, leaf: Leaf)
    requires Separate(tenants) && i < |tenants| && Belongs(tenants[i], s, leaf)
    ensures !HasLeaf(Remaining(tenants, i, s), leaf)
  {
    hide Separate, Without;
    if s.ownsTeam {
      WithoutTeamUnlisted(tenants, i, leaf);
    } else {
      OwnLeaf(tenants, i, leaf);
      var after := tenants[i := FinalizeService(tenants[i], s)];
      forall k | 0 <= k < |after| ensures !TenantHas(after[k], leaf) {
        assert k == i ==> forall e <- FinalizeService(tenants[i], s).applications :: EntryName(e) !in s.components;
        assert k == i && leaf.DatabaseLeaf? ==> forall e <- FinalizeService(tenants[i], s).databases :: EntryName(e) !in [s.databaseRef];
      }
    }
  }

  lemma ServiceUnlisted(tenants: seq<Tenant>, i: nat, s: Service)
    requires Separate(tenants) && i < |tenants| && s in tenants[i].services
    ensures !AnyService(Remaining(tenants, i, s), s.name)
  {
    hide Without, DistinctBy, TenantHas;
    assert TenantHasService(tenants[i], s.name);
    if s.ownsTeam {
      WithoutTeamNoService(tenants, i, s.name);
    } else {
      var after := tenants[i := FinalizeService(tenants[i], s)];
      forall k | 0 <= k < |after| ensures !TenantHasService(after[k], s.name) {
        if k == i {
          assert forall x <- FinalizeService(tenants[i], s).services :: ServiceName(x) !in [s.name];
        } else {
          assert TenantHasService(tenants[k], s.name) ==> k == i;
        }
      }
    }
  }

  // ---------------------------------------------------------------- every operation

  lemma RequestIsCarriedOut(repo: Repository, q: Request, next: Repository)
    requires Healthy(repo) && Step(repo, q, next)
    ensures CarriedOut(repo, q, next)
  {
    hide Execute, Consistent, RequestOk, FilesAfter, GapFree, Rendered, View, Valid, Unanimous, PlanIn, Planned, CarriedOut, Step, UniqueNames, AllNames,
         PlanTeamCreate, PlanServiceScaffold, Index, Separate, Derived, Shape;
    StepPlanned(repo, q, next);
    if q.operation.TeamCreate? {
      TeamCreated(repo, q, next);
    } else if q.operation.ServiceScaffold? {
      UniqueTenants(repo);
      ServiceScaffolded(repo, q, next);
    } else {
      var i := PlanOfTarget(repo, q, next);
      CarriedOutIn(repo, q, next, i);
    }
  }

  lemma CarriedOutIn(repo: Repository, q: Request, next: Repository, i: nat)
    requires Loads(repo) && i < |TenantsOf(repo)| && TenantsOf(repo)[i].name == Target(q) && !q.operation.TeamCreate? && !q.operation.ServiceScaffold?
    requires Planned(repo, q, next, PlanIn(repo, TenantsOf(repo), i, q)) && (AllowsRetiring(q.operation) || TenantsOf(repo)[i].lifecycle.Active?)
    requires Separate(TenantsOf(repo)) && Derived(TenantsOf(repo)) && (forall t <- TenantsOf(repo) :: Shape(t))
    ensures CarriedOut(repo, q, next)
  {
    hide Planned, CarriedOut, Loads, Separate, Derived, Shape, PlanTeamUpdate, PlanTeamDelete, PlanTeamFinalize, PlanAppCreate, PlanAppUpdate, PlanAppDelete,
         PlanAppFinalize, PlanDatabaseCreate, PlanDatabaseUpdate, PlanDatabaseDelete, PlanDatabaseFinalize, PlanServiceActivate, PlanServiceRetire,
         PlanServiceFinalize;
    match q.operation
    case TeamUpdate => TeamUpdated(repo, q, next, i);
    case TeamDelete => TeamDeleted(repo, q, next, i);
    case TeamFinalize => TeamFinalized(repo, q, next, i);
    case ServiceActivate => ServiceActivated(repo, q, next, i);
    case ServiceRetire => ServiceRetired(repo, q, next, i);
    case ServiceFinalize => ServiceFinalized(repo, q, next, i);
    case _ => EntryCarriedOut(repo, q, next, i);
  }

  lemma EntryCarriedOut(repo: Repository, q: Request, next: Repository, i: nat)
    requires Loads(repo) && i < |TenantsOf(repo)| && TenantsOf(repo)[i].name == Target(q)
    requires q.operation.AppCreate? || q.operation.AppUpdate? || q.operation.AppDelete? || q.operation.AppFinalize? || q.operation.DatabaseCreate?
             || q.operation.DatabaseRestore? || q.operation.DatabaseUpdate? || q.operation.DatabaseDelete? || q.operation.DatabaseFinalize?
    requires Planned(repo, q, next, PlanIn(repo, TenantsOf(repo), i, q)) && Separate(TenantsOf(repo)) && Derived(TenantsOf(repo))
    requires forall t <- TenantsOf(repo) :: Shape(t)
    ensures CarriedOut(repo, q, next)
  {
    hide Execute, RequestOk, FilesAfter, Unanimous, Healthy, Loads, Separate, Derived, Shape, Index, AddEntry, Without, AnyApplication, AnyDatabase,
         DatabaseActive, DatabaseInUse, UpdatedDatabase, Delivered, Withdrawn, Gone, RefersTo, AppFile, DatabaseManifest, DatabaseSays, Protected;
    var tenants, p := TenantsOf(repo), q.p;
    var t := tenants[i];
    RefusalFails(tenants, Conflict);
    RefusalFails(tenants, NotFound);
    OwnPaths(tenants, t);
    var a, d := Index(t.applications, EntryName, p.name), Index(t.databases, EntryName, p.name);
    AppFileSays(p.team, p, true);
    NewDatabaseSays(p.team, p, None);
    NewDatabaseSays(p.team, p, Some(Recovery(p.source, p.target)));
    match q.operation
    case AppCreate => EntryCreated(repo, q, next, i, false, p.databaseRef, AppFile(p.team, p, true));
    case AppUpdate => EntryUpdated(repo, q, next, i, false, a, t.applications[a].(databaseRef := p.databaseRef), AppFile(p.team, p, true));
    case AppDelete => EntryDeleted(repo, q, next, i, false, a);
    case AppFinalize => EntryFinalized(repo, q, next, i, false, a);
    case DatabaseCreate => EntryCreated(repo, q, next, i, true, "", DatabaseManifest(p.team, p, Storage(Some(p.size), LOCAL_PATH), None));
    case DatabaseRestore =>
      EntryCreated(repo, q, next, i, true, "", DatabaseManifest(p.team, p, Storage(Some(p.size), LOCAL_PATH), Some(Recovery(p.source, p.target))));
    case DatabaseUpdate => DatabaseUpdated(repo, q, next, i);
    case DatabaseDelete => EntryDeleted(repo, q, next, i, true, d);
    case DatabaseFinalize => EntryFinalized(repo, q, next, i, true, d);
  }

  /** A listed database has a stored manifest at an allowed path. */
  lemma ListedDatabase(repo: Repository, t: Tenant, d: nat)
    requires Healthy(repo) && t in TenantsOf(repo) && d < |t.databases|
    ensures var path := Manifest(DatabaseLeaf(t.databases[d].name)); Allowed(path) && path in repo && Stored(repo[path])
  {
    hide UniqueNames, AllNames, ValidName, OwnersOk, IsUuid, Stored, ApplicationOk, ServiceOk;
    var e := t.databases[d];
    assert TenantOk(repo.Keys, t) && e in t.databases && DatabaseOk(repo.Keys, e);
    var l := Listed(DatabaseLeaf(e.name), e.lifecycle, e.request);
    assert TenantLists(t, l);
    assert CatalogLists(TenantsOf(repo), l);
  }

  lemma DatabaseUpdated(repo: Repository, q: Request, next: Repository, i: nat)
    requires Loads(repo) && i < |TenantsOf(repo)| && q.operation.DatabaseUpdate? && Planned(repo, q, next, PlanDatabaseUpdate(repo, TenantsOf(repo), i, q))
    requires Shape(TenantsOf(repo)[i])
    ensures CarriedOut(repo, q, next)
  {
    hide Execute, RequestOk, FilesAfter, Unanimous, Healthy, Loads, Shape, Index, UpdatedDatabase, Delivered, DatabaseSays, Stored, Allowed;
    var tenants := TenantsOf(repo);
    var t, d := tenants[i], Index(tenants[i].databases, EntryName, q.p.name);
    RefusalFails(tenants, Conflict);
    RefusalFails(tenants, NotFound);
    if UpdatedDatabase(repo, q.p).Err? {
      RefusalFails(tenants, UpdatedDatabase(repo, q.p).error);
    } else {
      var e := t.databases[d];
      assert t.databases[d := e] == t.databases && WithEntries(t, true, t.databases) == t;
      assert tenants[i := t] == tenants;
      EntryUpdated(repo, q, next, i, true, d, e, UpdatedDatabase(repo, q.p).value);
      ListedDatabase(repo, t, d);
      UpdatedDatabaseSays(repo, q.p);
    }
  }
}
