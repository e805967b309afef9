/** No file is left behind: every leaf file and every source file of the repository
    belongs to something the catalog lists, until a service takes a team with it that
    holds more than the service. */
module TrackedFiles {
  import opened Wrappers
  import opened Catalog
  import opened CatalogValidation
  import opened CatalogFacts
  import opened ChangePlan
  import opened ChangeSets
  import opened OverlayFacts
  import opened RenderSafety
  import opened RenderAccounting
  import opened ServiceAccounting
  import opened CatalogPreserved
  import opened OperationSoundness
  import opened ServiceSoundness
  import opened RenderRuns
  import opened ScaffoldRoundTrip
  import opened ServiceLifecycle
  import opened RequestEffects

  /** The leaf or the source a file belongs to is listed. */
  predicate FileTracked(tenants: seq<Tenant>, p: Path) {
    && (p.Manifest? || p.Kustomization? || p.Extra? ==> HasLeaf(tenants, p.leaf))
    && (p.Source? ==> AnyService(tenants, p.service))
  }

  ghost predicate Tracked(repo: Repository) { Loads(repo) && forall p <- repo :: FileTracked(TenantsOf(repo), p) }

  /** The tenant has an application, a database or a service besides what is the service's. */
  predicate HoldsMore(t: Tenant, s: Service) {
    || (exists a <- t.applications :: a.name !in s.components)
    || (exists d <- t.databases :: !s.ownsDatabase || d.name != s.databaseRef)
    || (exists x <- t.services :: x.name != s.name)
  }

  /** The request finalizes a service that owns its team, and the team holds more. */
  predicate Orphans(repo: Repository, q: Request) {
    && q.operation.ServiceFinalize? && Loads(repo)
    && exists t <- TenantsOf(repo) :: t.name == q.p.team && exists s <- t.services :: s.name == q.p.name && s.ownsTeam && HoldsMore(t, s)
  }

  // ---------------------------------------------------------------- plans that cover what they change

  /** What a plan stops listing it drops, and what it writes it lists. */
  ghost predicate Covers(tenants: seq<Tenant>, plan: Plan) {
    && (forall leaf :: HasLeaf(tenants, leaf) && !HasLeaf(plan.tenants, leaf) ==> DropLeaf(leaf) in plan.actions)
    && (forall name :: AnyService(tenants, name) && !AnyService(plan.tenants, name) ==> exists a <- plan.actions :: a.DropSource? && a.service.path == name)
    && Lists(plan)
  }

  ghost predicate Lists(plan: Plan) { forall a <- plan.actions :: ListsWritten(plan.tenants, a) }

  predicate ListsWritten(tenants: seq<Tenant>, a: Action) {
    && (a.WriteLeaf? ==> HasLeaf(tenants, a.leaf))
    && (a.WriteSource? || a.WriteVersion? ==> AnyService(tenants, a.service.path))
  }

  lemma CoveredIsTracked(repo: Repository, q: Request, next: Repository, plan: Plan)
    requires Planned(repo, q, next, plan) && Tracked(repo) && Covers(TenantsOf(repo), plan)
    ensures Tracked(next)
  {
    hide Execute, RequestOk, FilesAfter, Unanimous, Consistent, Valid, HasLeaf, AnyService;
    forall p | p in next ensures FileTracked(plan.tenants, p) {
      if p.Manifest? || p.Kustomization? || p.Extra? {
        LeafFileTracked(repo, q, next, plan, p);
      } else if p.Source? {
        SourceFileTracked(repo, q, next, plan, p);
      }
    }
  }

  lemma LeafFileTracked(repo: Repository, q: Request, next: Repository, plan: Plan, p: Path)
    requires Planned(repo, q, next, plan) && Tracked(repo) && Covers(TenantsOf(repo), plan) && p in next && (p.Manifest? || p.Kustomization? || p.Extra?)
    ensures HasLeaf(plan.tenants, p.leaf)
  {
    hide Execute, RequestOk, FilesAfter, Unanimous, Consistent, Valid, HasLeaf, AnyService;
    if p !in repo {
      CreatedBy(repo, plan, p);
    } else if !HasLeaf(plan.tenants, p.leaf) {
      assert FileTracked(TenantsOf(repo), p);
      DroppedLeaf(repo, plan, p.leaf);
      NoneBlocked(repo, plan.actions, DropLeaf(p.leaf));
      UntouchedAfter(repo, plan, p);
    }
  }

  lemma SourceFileTracked(repo: Repository, q: Request, next: Repository, plan: Plan, p: Path)
    requires Planned(repo, q, next, plan) && Tracked(repo) && Covers(TenantsOf(repo), plan) && p in next && p.Source?
    ensures AnyService(plan.tenants, p.service)
  {
    hide Execute, RequestOk, FilesAfter, Unanimous, Consistent, Valid, HasLeaf, AnyService;
    if p !in repo {
      var a := SourceCreated(repo, plan, p);
      assert ListsWritten(plan.tenants, a);
    } else if !AnyService(plan.tenants, p.service) {
      assert FileTracked(TenantsOf(repo), p);
      var a :| a in plan.actions && a.DropSource? && a.service.path == p.service;
      DroppedSource(repo, plan, a.service, p);
    }
  }

  // ---------------------------------------------------------------- plans that list all they listed

  predicate Retains(before: Tenant, after: Tenant) {
    && after.name == before.name
    && (forall e <- before.applications :: HasEntry(after.applications, e.name)) && (forall e <- before.databases :: HasEntry(after.databases, e.name))
    && forall s <- before.services :: TenantHasService(after, s.name)
  }

  ghost predicate RetainsAll(before: seq<Tenant>, after: seq<Tenant>) { forall t <- before :: exists u <- after :: Retains(t, u) }

  lemma RetainsItself(t: Tenant)
    ensures Retains(t, t)
  {
  }

  lemma InPlaceRetains(tenants: seq<Tenant>, i: nat, t: Tenant)
    requires i < |tenants| && Retains(tenants[i], t)
    ensures RetainsAll(tenants, tenants[i := t])
  {
    hide Retains;
    forall u | u in tenants ensures exists v <- tenants[i := t] :: Retains(u, v) {
      var k :| 0 <= k < |tenants| && tenants[k] == u;
      RetainsItself(u);
      assert tenants[i := t][k] in tenants[i := t];
    }
  }

  lemma MoreRetain(tenants: seq<Tenant>, more: seq<Tenant>)
    requires forall t <- tenants :: t in more
    ensures RetainsAll(tenants, more)
  {
    hide Retains;
    forall t | t in tenants ensures Retains(t, t) {
      RetainsItself(t);
    }
  }

  lemma RetainsTrans(a: seq<Tenant>, b: seq<Tenant>, c: seq<Tenant>)
    requires RetainsAll(a, b) && RetainsAll(b, c)
    ensures RetainsAll(a, c)
  {
    hide Retains;
    forall t | t in a ensures exists v <- c :: Retains(t, v) {
      var u :| u in b && Retains(t, u);
      var v :| v in c && Retains(u, v);
      OneRetainsTrans(t, u, v);
    }
  }

  lemma OneRetainsTrans(a: Tenant, b: Tenant, c: Tenant)
    requires Retains(a, b) && Retains(b, c)
    ensures Retains(a, c)
  {
  }

  lemma RetainedIsListed(t: Tenant, u: Tenant)
    requires Retains(t, u)
    ensures forall leaf :: TenantHas(t, leaf) ==> TenantHas(u, leaf)
    ensures forall name :: TenantHasService(t, name) ==> TenantHasService(u, name)
  {
  }

  lemma RetainingCovers(tenants: seq<Tenant>, plan: Plan)
    requires RetainsAll(tenants, plan.tenants) && Lists(plan)
    ensures Covers(tenants, plan)
  {
    hide Retains, TenantHas, TenantHasService, Lists;
    forall leaf | HasLeaf(tenants, leaf) ensures HasLeaf(plan.tenants, leaf) {
      var t :| t in tenants && TenantHas(t, leaf);
      var u :| u in plan.tenants && Retains(t, u);
      RetainedIsListed(t, u);
    }
    forall name | AnyService(tenants, name) ensures AnyService(plan.tenants, name) {
      ServiceListed(tenants, name);
      var t :| t in tenants && TenantHasService(t, name);
      var u :| u in plan.tenants && Retains(t, u);
      RetainedIsListed(t, u);
      ServiceListed(plan.tenants, name);
    }
  }

  lemma ServiceListed(tenants: seq<Tenant>, name: string)
    ensures AnyService(tenants, name) <==> exists t <- tenants :: TenantHasService(t, name)
  {
  }

  /** The target keeps what it lists, and lists what is written. */
  lemma InPlaceCovers(tenants: seq<Tenant>, i: nat, t: Tenant, actions: seq<Action>)
    requires i < |tenants| && Retains(tenants[i], t)
    requires forall a <- actions :: a.WriteLeaf? ==> TenantHas(t, a.leaf)
    requires forall a <- actions :: a.WriteSource? || a.WriteVersion? ==> TenantHasService(t, a.service.path)
    ensures Covers(tenants, Plan(tenants[i := t], actions))
  {
    hide Retains, TenantHas, TenantHasService;
    InPlaceRetains(tenants, i, t);
    var plan := Plan(tenants[i := t], actions);
    assert plan.tenants[i] in plan.tenants;
    forall a | a in actions ensures ListsWritten(plan.tenants, a) {
      if a.WriteSource? || a.WriteVersion? {
        ServiceListed(plan.tenants, a.service.path);
      }
    }
    RetainingCovers(tenants, plan);
  }

  // ---------------------------------------------------------------- teams

  lemma TeamCreateCovers(tenants: seq<Tenant>, q: Request)
    requires AllWrites(PlanTeamCreate(tenants, q).actions)
    ensures Covers(tenants, PlanTeamCreate(tenants, q))
  {
    hide Index, Normalize, TeamFile, RetainsAll;
    RefusalFails(tenants, Conflict);
    var plan := PlanTeamCreate(tenants, q);
    MoreRetain(tenants, plan.tenants);
    assert NewTenant(q.p.name, q.p.owners) in plan.tenants;
    RetainingCovers(tenants, plan);
  }

  lemma TeamUpdateCovers(tenants: seq<Tenant>, i: nat, q: Request)
    requires i < |tenants| && tenants[i].name == q.p.name
    ensures Covers(tenants, PlanTeamUpdate(tenants, i, q))
  {
    hide Normalize, TeamFile, Covers;
    RetainsItself(tenants[i]);
    InPlaceCovers(tenants, i, tenants[i].(owners := Normalize(q.p.owners)), PlanTeamUpdate(tenants, i, q).actions);
  }

  lemma TeamDeleteCovers(tenants: seq<Tenant>, i: nat, q: Request)
    requires i < |tenants| && tenants[i].name == q.p.name
    ensures Covers(tenants, PlanTeamDelete(tenants, i, q))
  {
    hide Covers;
    var t, r := tenants[i], RetireTenant(tenants[i], q.id);
    forall a | a in PlanTeamDelete(tenants, i, q).actions ensures a.Approve? {
      ApprovalIsOwn(t, q, a);
    }
    RetiredNamesStay(t.applications, r.applications);
    RetiredNamesStay(t.databases, r.databases);
    forall s | s in t.services ensures TenantHasService(r, s.name) {
      var k :| 0 <= k < |t.services| && t.services[k] == s;
      assert r.services[k] in r.services;
    }
    InPlaceCovers(tenants, i, r, PlanTeamDelete(tenants, i, q).actions);
  }

  lemma RetiredNamesStay(before: seq<Entry>, after: seq<Entry>)
    requires |after| == |before| && forall k :: 0 <= k < |before| ==> after[k].name == before[k].name
    ensures forall e <- before :: HasEntry(after, e.name)
  {
    forall e | e in before ensures HasEntry(after, e.name) {
      var k :| 0 <= k < |before| && before[k] == e;
      assert after[k] in after;
    }
  }

  /** A team that goes takes exactly what it drops. */
  lemma RemovalCovers(tenants: seq<Tenant>, i: nat, actions: seq<Action>)
    requires i < |tenants| && Separate(tenants) && forall a <- actions :: a.DropLeaf? || a.DropSource?
    requires forall leaf :: TenantHas(tenants[i], leaf) ==> DropLeaf(leaf) in actions
    requires forall name :: TenantHasService(tenants[i], name) ==> exists a <- actions :: a.DropSource? && a.service.path == name
    ensures Covers(tenants, Plan(Without(tenants, TenantName, [tenants[i].name]), actions))
  {
    hide Without, TenantHas, TenantHasService, Separate;
    var after := Without(tenants, TenantName, [tenants[i].name]);
    forall leaf | HasLeaf(tenants, leaf) && !HasLeaf(after, leaf) ensures DropLeaf(leaf) in actions {
      var t :| t in tenants && TenantHas(t, leaf);
      GoesWithTheTeam(tenants, i, t);
    }
    forall name | AnyService(tenants, name) && !AnyService(after, name) ensures exists a <- actions :: a.DropSource? && a.service.path == name {
      ServiceListed(tenants, name);
      ServiceListed(after, name);
      var t :| t in tenants && TenantHasService(t, name);
      GoesWithTheTeam(tenants, i, t);
    }
  }

  lemma GoesWithTheTeam(tenants: seq<Tenant>, i: nat, t: Tenant)
    requires i < |tenants| && Separate(tenants) && t in tenants
    ensures t in Without(tenants, TenantName, [tenants[i].name]) || t == tenants[i]
  {
    hide Without, Separate;
    if TenantName(t) in [tenants[i].name] {
      OneTenantOfName(tenants, t, tenants[i]);
    }
  }

  lemma TeamFinalizeCovers(tenants: seq<Tenant>, i: nat, q: Request)
    requires i < |tenants| && tenants[i].name == q.p.name && Separate(tenants) && Derived(tenants) && (forall t <- tenants :: Shape(t))
    requires AllWrites(PlanTeamFinalize(tenants, i, q).actions)
    ensures Covers(tenants, PlanTeamFinalize(tenants, i, q))
  {
    hide Without, TenantHas, Separate, Derived, Shape, Covers, Drops, SourceDrops;
    RefusalFails(tenants, Conflict);
    var plan, t := PlanTeamFinalize(tenants, i, q), tenants[i];
    OwnPaths(tenants, t);
    forall leaf | TenantHas(t, leaf) ensures DropLeaf(leaf) in plan.actions {
      FinalizedLeaf(t, q, leaf);
    }
    forall name | TenantHasService(t, name) ensures exists a <- plan.actions :: a.DropSource? && a.service.path == name {
      var s :| s in t.services && s.name == name;
      FinalizedService(t, s);
      PathIsName(t, s);
      assert DropSource(s) in plan.actions;
    }
    OnlyDrops(t, q);
    RemovalCovers(tenants, i, plan.actions);
  }

  lemma OnlyDrops(t: Tenant, q: Request)
    ensures forall a <- [DropLeaf(TeamLeaf(q.p.name))] + Drops(t.applications) + Drops(t.databases) + SourceDrops(t.services) :: a.DropLeaf? || a.DropSource?
  {
  }

  // ---------------------------------------------------------------- applications and databases

  lemma EntriesRetain(t: Tenant, databases: bool, entries: seq<Entry>)
    requires forall e <- EntriesOf(t, databases) :: HasEntry(entries, e.name)
    ensures Retains(t, WithEntries(t, databases, entries))
  {
  }

  lemma CreateCovers(tenants: seq<Tenant>, i: nat, databases: bool, e: Entry, file: File)
    requires i < |tenants|
    ensures Covers(tenants, Plan(tenants[i := WithEntries(tenants[i], databases, AddEntry(EntriesOf(tenants[i], databases), e))],
                                 [WriteLeaf(LeafOf(e.name, databases), file)]))
  {
    hide AddEntry, Covers, Retains;
    var entries := AddEntry(EntriesOf(tenants[i], databases), e);
    StillThere(EntriesOf(tenants[i], databases), e);
    EntriesRetain(tenants[i], databases, entries);
    InPlaceCovers(tenants, i, WithEntries(tenants[i], databases, entries), [WriteLeaf(LeafOf(e.name, databases), file)]);
  }

  lemma ReplaceCovers(tenants: seq<Tenant>, i: nat, databases: bool, j: nat, e: Entry, action: Action)
    requires i < |tenants| && j < |EntriesOf(tenants[i], databases)| && EntriesOf(tenants[i], databases)[j].name == e.name
    requires (action.WriteLeaf? && action.leaf == LeafOf(e.name, databases)) || action.Approve?
    ensures Covers(tenants, Plan(tenants[i := WithEntries(tenants[i], databases, EntriesOf(tenants[i], databases)[j := e])], [action]))
  {
    hide Covers, Retains;
    var entries := EntriesOf(tenants[i], databases)[j := e];
    RetiredNamesStay(EntriesOf(tenants[i], databases), entries);
    EntriesRetain(tenants[i], databases, entries);
    assert entries[j] in entries;
    InPlaceCovers(tenants, i, WithEntries(tenants[i], databases, entries), [action]);
  }

  lemma RemoveCovers(tenants: seq<Tenant>, i: nat, databases: bool, name: string)
    requires i < |tenants| && Separate(tenants)
    ensures Covers(tenants, Plan(tenants[i := WithEntries(tenants[i], databases, Without(EntriesOf(tenants[i], databases), EntryName, [name]))],
                                 [DropLeaf(LeafOf(name, databases))]))
  {
    hide Without, Separate;
    var t := WithEntries(tenants[i], databases, Without(EntriesOf(tenants[i], databases), EntryName, [name]));
    forall leaf | TenantHas(tenants[i], leaf) && leaf != LeafOf(name, databases) ensures TenantHas(t, leaf) {
      OtherEntryStays(tenants[i], databases, name, leaf);
    }
    ReducedCovers(tenants, i, t, [DropLeaf(LeafOf(name, databases))]);
  }

  lemma OtherEntryStays(t: Tenant, databases: bool, name: string, leaf: Leaf)
    requires TenantHas(t, leaf) && leaf != LeafOf(name, databases)
    ensures TenantHas(WithEntries(t, databases, Without(EntriesOf(t, databases), EntryName, [name])), leaf)
  {
    hide Without;
    if !leaf.TeamLeaf? && leaf.DatabaseLeaf? == databases {
      var e :| e in EntriesOf(t, databases) && e.name == leaf.name;
      assert EntryName(e) !in [name];
      assert e in Without(EntriesOf(t, databases), EntryName, [name]);
    }
  }

  /** A tenant that loses no more than what is dropped. */
  lemma ReducedCovers(tenants: seq<Tenant>, i: nat, t: Tenant, actions: seq<Action>)
    requires i < |tenants| && forall a <- actions :: a.DropLeaf? || a.DropSource?
    requires forall leaf :: TenantHas(tenants[i], leaf) ==> TenantHas(t, leaf) || DropLeaf(leaf) in actions
    requires forall name :: TenantHasService(tenants[i], name) ==> TenantHasService(t, name) || exists a <- actions :: a.DropSource? && a.service.path == name
    ensures Covers(tenants, Plan(tenants[i := t], actions))
  {
    hide TenantHas, TenantHasService;
    var after := tenants[i := t];
    assert after[i] in after;
    forall leaf | HasLeaf(tenants, leaf) && !HasLeaf(after, leaf) ensures DropLeaf(leaf) in actions {
      var u :| u in tenants && TenantHas(u, leaf);
      var k :| 0 <= k < |tenants| && tenants[k] == u;
      assert after[k] in after;
    }
    forall name | AnyService(tenants, name) && !AnyService(after, name) ensures exists a <- actions :: a.DropSource? && a.service.path == name {
      ServiceListed(tenants, name);
      ServiceListed(after, name);
      var u :| u in tenants && TenantHasService(u, name);
      var k :| 0 <= k < |tenants| && tenants[k] == u;
      assert after[k] in after;
    }
  }

  lemma EntryPlansCover(repo: Repository, tenants: seq<Tenant>, i: nat, q: Request)
    requires i < |tenants| && Separate(tenants) && Derived(tenants)
    requires q.operation.AppCreate? || q.operation.AppUpdate? || q.operation.AppDelete? || q.operation.AppFinalize? || q.operation.DatabaseCreate?
             || q.operation.DatabaseRestore? || q.operation.DatabaseUpdate? || q.operation.DatabaseDelete? || q.operation.DatabaseFinalize?
    requires AllWrites(PlanIn(repo, tenants, i, q).actions)
    ensures Covers(tenants, PlanIn(repo, tenants, i, q))
  {
    hide Covers, Separate, Derived, Index, AddEntry, Without, AnyApplication, AnyDatabase, DatabaseActive, DatabaseInUse, UpdatedDatabase, AppFile, DatabaseManifest;
    var t, p := tenants[i], q.p;
    RefusalFails(tenants, Conflict);
    RefusalFails(tenants, NotFound);
    OwnPaths(tenants, t);
    var a, d := Index(t.applications, EntryName, p.name), Index(t.databases, EntryName, p.name);
    match q.operation
    case AppCreate => CreateCovers(tenants, i, false, NewEntry(AppLeaf(p.name), p.databaseRef), AppFile(p.team, p, true));
    case AppUpdate => ReplaceCovers(tenants, i, false, a, t.applications[a].(databaseRef := p.databaseRef), WriteLeaf(AppLeaf(p.name), AppFile(p.team, p, true)));
    case AppDelete => ReplaceCovers(tenants, i, false, a, Retired(t.applications[a], q.id), Approve(AppLeaf(p.name), q.id, p.force));
    case AppFinalize =>
      assert t.applications[a] in t.applications;
      RemoveCovers(tenants, i, false, p.name);
    case DatabaseUpdate => DatabaseUpdateCovers(repo, tenants, i, q);
    case DatabaseDelete => ReplaceCovers(tenants, i, true, d, Retired(t.databases[d], q.id), Approve(DatabaseLeaf(p.name), q.id, p.force));
    case DatabaseFinalize =>
      assert t.databases[d] in t.databases;
      RemoveCovers(tenants, i, true, p.name);
    case _ =>
      var recovery := if q.operation.DatabaseRestore? then Some(Recovery(p.source, p.target)) else None;
      CreateCovers(tenants, i, true, NewEntry(DatabaseLeaf(p.name), ""), DatabaseManifest(p.team, p, Storage(Some(p.size), LOCAL_PATH), recovery));
  }

  lemma DatabaseUpdateCovers(repo: Repository, tenants: seq<Tenant>, i: nat, q: Request)
    requires i < |tenants| && AllWrites(PlanDatabaseUpdate(repo, tenants, i, q).actions)
    ensures Covers(tenants, PlanDatabaseUpdate(repo, tenants, i, q))
  {
    hide Covers, Index, UpdatedDatabase;
    var t := tenants[i];
    RefusalFails(tenants, Conflict);
    RefusalFails(tenants, NotFound);
    if UpdatedDatabase(repo, q.p).Err? {
      RefusalFails(tenants, UpdatedDatabase(repo, q.p).error);
    } else {
      RetainsItself(t);
      assert tenants[i := t] == tenants;
      assert t.databases[Index(t.databases, EntryName, q.p.name)] in t.databases;
      InPlaceCovers(tenants, i, t, PlanDatabaseUpdate(repo, tenants, i, q).actions);
    }
  }

  // ---------------------------------------------------------------- services

  lemma ScaffoldRetains(t: Tenant, p: Parameters)
    ensures Retains(t, WithService(t, p)) && TenantHasService(WithService(t, p), p.name)
    ensures p.withDatabase ==> TenantHas(WithService(t, p), DatabaseLeaf(p.name))
  {
    hide AddEntry, SortBy, TemplateComponents;
    StillThere(t.databases, NewEntry(DatabaseLeaf(p.name), ""));
    forall s | s in t.services + [NewService(p)] ensures s in WithService(t, p).services {
      SortedMembers(t.services + [NewService(p)], ServiceName, s);
    }
    assert NewService(p) in t.services + [NewService(p)];
  }

  lemma ScaffoldInCovers(tenants: seq<Tenant>, base: seq<Tenant>, k: nat, p: Parameters, first: seq<Action>)
    requires k < |base| && (forall t <- tenants :: t in base) && forall a <- first :: a.WriteLeaf? && a.leaf == TeamLeaf(base[k].name)
    ensures Covers(tenants, Plan(base[k := WithService(base[k], p)], first + ScaffoldActions(p)))
  {
    hide WithService, Retains, RetainsAll, TenantHasService;
    var t := WithService(base[k], p);
    var plan := Plan(base[k := t], first + ScaffoldActions(p));
    ScaffoldRetains(base[k], p);
    MoreRetain(tenants, base);
    InPlaceRetains(base, k, t);
    RetainsTrans(tenants, base, plan.tenants);
    assert plan.tenants[k] in plan.tenants && t.name == base[k].name by { ScaffoldKeepsName(base[k], p); }
    ServiceListed(plan.tenants, p.name);
    RetainingCovers(tenants, plan);
  }

  lemma ScaffoldKeepsName(t: Tenant, p: Parameters)
    ensures WithService(t, p).name == t.name
  {
  }

  lemma ServiceScaffoldCovers(tenants: seq<Tenant>, q: Request)
    requires UniqueNames(AllNames(tenants)) && AllWrites(PlanServiceScaffold(tenants, q).actions)
    ensures Covers(tenants, PlanServiceScaffold(tenants, q))
  {
    hide UniqueNames, AllNames, Index, AnyService, SortBy, DatabaseActive, ScaffoldActions, WithService, TeamFile, ServiceTeam, Covers;
    var p, i := q.p, Index(tenants, TenantName, q.p.team);
    RefusalFails(tenants, Conflict);
    RefusalFails(tenants, NotFound);
    if i >= 0 {
      FailsLast([]);
      ScaffoldInCovers(tenants, tenants, i, p, []);
    } else {
      var team := NewTenant(p.team, ServiceTeam(p).owners);
      var first := WriteLeaf(TeamLeaf(p.team), TeamFile(p.team, ServiceTeam(p)));
      var longer := SortBy(tenants + [team], TenantName);
      var k := NewTeamAt(tenants, team);
      FailsLast([first]);
      forall t | t in tenants ensures t in longer {
        SortedMembers(tenants + [team], TenantName, t);
      }
      ScaffoldInCovers(tenants, longer, k, p, [first]);
    }
  }

  lemma ServiceActivateCovers(tenants: seq<Tenant>, i: nat, q: Request)
    requires i < |tenants| && Separate(tenants) && Shape(tenants[i]) && AllWrites(PlanServiceActivate(tenants, i, q).actions)
    ensures Covers(tenants, PlanServiceActivate(tenants, i, q))
  {
    hide Index, SortBy, WithComponents, ComponentActions, Separate, Shape, ComponentFile, Activated, DistinctBy, Covers;
    RefusalFails(tenants, Conflict);
    RefusalFails(tenants, NotFound);
    var plan, t, j := PlanServiceActivate(tenants, i, q), tenants[i], Index(tenants[i].services, ServiceName, q.p.name);
    var s := t.services[j].(version := q.p.version);
    var active := s.(lifecycle := Active);
    var after, writes := WithComponents(t.applications, s, s.components), ComponentActions(q.p.team, t.applications, s, s.components);
    SeparateTenant(tenants, i);
    assert forall a <- writes :: a in plan.actions;
    ComponentsActivate(t.applications, q.p.team, s, s.components);
    assert t.services[j] in t.services;
    PathIsName(t, t.services[j]);
    ActivationRetains(t, after, writes, q.p.team, s, j, active);
    InPlaceCovers(tenants, i, plan.tenants[i], plan.actions);
  }

  lemma ActivationRetains(t: Tenant, after: seq<Entry>, writes: seq<Action>, team: string, s: Service, j: nat, active: Service)
    requires Activated(t.applications, after, writes, team, s, s.components) && j < |t.services| && active.name == t.services[j].name
    ensures var changed := t.(applications := SortBy(after, EntryName), services := t.services[j := active]);
            && Retains(t, changed) && TenantHasService(changed, active.name)
            && forall a <- writes :: a.WriteLeaf? && TenantHas(changed, a.leaf)
  {
    hide SortBy, ComponentFile;
    var changed := t.(applications := SortBy(after, EntryName), services := t.services[j := active]);
    forall e | e in after ensures HasEntry(changed.applications, e.name) {
      SortedMembers(after, EntryName, e);
    }
    forall e | e in t.applications ensures HasEntry(changed.applications, e.name) {
      EntryStays(t.applications, after, writes, team, s, e.name);
    }
    assert changed.services[j] in changed.services;
    forall x | x in t.services ensures TenantHasService(changed, x.name) {
      var k :| 0 <= k < |t.services| && t.services[k] == x;
      assert changed.services[k] in changed.services;
    }
  }

  lemma ServiceRetireCovers(tenants: seq<Tenant>, i: nat, q: Request)
    requires i < |tenants| && Separate(tenants) && AllWrites(PlanServiceRetire(tenants, i, q).actions)
    ensures Covers(tenants, PlanServiceRetire(tenants, i, q))
  {
    hide Index, RetireService, ApproveNamed, OwnedDatabase, Separate, Covers;
    RefusalFails(tenants, Conflict);
    RefusalFails(tenants, NotFound);
    var plan, t, j := PlanServiceRetire(tenants, i, q), tenants[i], Index(tenants[i].services, ServiceName, q.p.name);
    RetirementActions(tenants, i, j, q);
    SeparateTenant(tenants, i);
    RetirementRetains(t, j, q.id);
    InPlaceCovers(tenants, i, RetireService(t, j, q.id), plan.actions);
  }

  lemma RetirementRetains(t: Tenant, j: nat, id: string)
    requires j < |t.services| && DistinctBy(t.applications, EntryName)
    ensures Retains(t, RetireService(t, j, id))
  {
    hide RetireNamed, OwnedDatabase, DistinctBy;
    var r := RetireService(t, j, id);
    NamesRetire(t.applications, t.services[j].components, id);
    NamedRetiredNames(t.applications, r.applications, t.services[j].components, id);
    RetiredNamesStay(t.applications, r.applications);
    RetiredNamesStay(t.databases, r.databases);
    forall x | x in t.services ensures TenantHasService(r, x.name) {
      var k :| 0 <= k < |t.services| && t.services[k] == x;
      assert r.services[k] in r.services;
    }
  }

  // ---------------------------------------------------------------- finalized services

  /** What belongs to the service and what does not, leaf by leaf. */
  lemma MoreByLeaf(t: Tenant, s: Service)
    requires s.ownsTeam && forall d <- t.databases :: d.name != ""
    ensures !HoldsMore(t, s) <==> (forall leaf :: TenantHas(t, leaf) ==> Belongs(t, s, leaf)) && forall x <- t.services :: x.name == s.name
  {
    if forall leaf :: TenantHas(t, leaf) ==> Belongs(t, s, leaf) {
      forall a | a in t.applications ensures a.name in s.components {
        assert TenantHas(t, AppLeaf(a.name));
      }
      forall d | d in t.databases ensures s.ownsDatabase && d.name == s.databaseRef {
        assert TenantHas(t, DatabaseLeaf(d.name));
      }
    }
  }

  lemma ServiceFinalizeCovers(repo: Repository, tenants: seq<Tenant>, i: nat, j: nat, q: Request)
    requires Finalizes(repo, tenants, i, j, q) && (tenants[i].services[j].ownsTeam ==> !HoldsMore(tenants[i], tenants[i].services[j]))
    ensures Covers(tenants, PlanServiceFinalize(tenants, i, q))
  {
    hide Index, DropNamed, OwnedDatabase, Separate, Derived, Shape, Belongs, Without, FinalizeService, TenantHas, Covers, HoldsMore;
    var plan, t := PlanServiceFinalize(tenants, i, q), tenants[i];
    var s := t.services[j];
    FinalizationActions(repo, tenants, i, j, q);
    PathIsName(t, s);
    DatabasesAreNamed(t);
    forall leaf | Belongs(t, s, leaf) ensures DropLeaf(leaf) in plan.actions {
      BelongingDrops(t, s, leaf, plan.actions);
    }
    if s.ownsTeam {
      MoreByLeaf(t, s);
      RemovalCovers(tenants, i, plan.actions);
    } else {
      FinalizationKeepsOthers(t, s);
      ReducedCovers(tenants, i, FinalizeService(t, s), plan.actions);
    }
  }

  /** The service found in the target, and a plan without refusals. */
  ghost predicate Finalizes(repo: Repository, tenants: seq<Tenant>, i: nat, j: nat, q: Request) {
    && i < |tenants| && j < |tenants[i].services| && Index(tenants[i].services, ServiceName, q.p.name) == j && Separate(tenants) && Derived(tenants)
    && (forall t <- tenants :: Shape(t)) && IsRetiringUnder(tenants[i].services[j].lifecycle, tenants[i].services[j].request, q.p)
    && AllWrites(PlanServiceFinalize(tenants, i, q).actions)
  }

  lemma DatabasesAreNamed(t: Tenant)
    requires Shape(t)
    ensures forall d <- t.databases :: d.name != ""
  {
  }

  lemma FinalizationKeepsOthers(t: Tenant, s: Service)
    requires !s.ownsTeam && forall d <- t.databases :: d.name != ""
    ensures forall leaf :: TenantHas(t, leaf) ==> TenantHas(FinalizeService(t, s), leaf) || Belongs(t, s, leaf)
    ensures forall name :: TenantHasService(t, name) ==> TenantHasService(FinalizeService(t, s), name) || name == s.name
  {
    hide Without;
    var r := FinalizeService(t, s);
    forall leaf | TenantHas(t, leaf) && !Belongs(t, s, leaf) ensures TenantHas(r, leaf) {
      if leaf.AppLeaf? {
        var e :| e in t.applications && e.name == leaf.name;
        assert EntryName(e) !in s.components;
        assert e in r.applications;
      } else if leaf.DatabaseLeaf? {
        var e :| e in t.databases && e.name == leaf.name;
        assert s.ownsDatabase ==> EntryName(e) !in [s.databaseRef];
        assert e in r.databases;
      }
    }
    forall name | TenantHasService(t, name) && name != s.name ensures TenantHasService(r, name) {
      var x :| x in t.services && x.name == name;
      assert ServiceName(x) !in [s.name];
      assert x in r.services;
    }
  }

  /** A leaf that goes out of the catalog with a team, and does not belong to the
      service, keeps its manifest as it was: listed by nobody, and not retired. */
  lemma OrphanedLeafStays(repo: Repository, q: Request, next: Repository, i: nat, j: nat, leaf: Leaf)
    requires Loads(repo) && Finalizes(repo, TenantsOf(repo), i, j, q) && Planned(repo, q, next, PlanServiceFinalize(TenantsOf(repo), i, q))
    requires var t := TenantsOf(repo)[i]; t.services[j].ownsTeam && TenantHas(t, leaf) && !Belongs(t, t.services[j], leaf)
    ensures Manifest(leaf) in repo && Manifest(leaf) in next && next[Manifest(leaf)] == repo[Manifest(leaf)] && !HasLeaf(TenantsOf(next), leaf)
  {
    hide Index, DropNamed, OwnedDatabase, Separate, Derived, Shape, Without, TenantHas, Execute, RequestOk, FilesAfter, Unanimous, Consistent, Valid, HasLeaf;
    var tenants := TenantsOf(repo);
    var plan, t := PlanServiceFinalize(tenants, i, q), tenants[i];
    FinalizationActions(repo, tenants, i, j, q);
    LeafPresent(repo, t, leaf);
    forall a | a in plan.actions ensures ActionLeaf(a) != Some(leaf) {
      if ActionLeaf(a) == Some(leaf) {
        DroppedBelongs(t, t.services[j], leaf);
      }
    }
    KeptLeafAfter(repo, plan, leaf);
    WithoutTeamUnlisted(tenants, i, leaf);
  }

  lemma DroppedBelongs(t: Tenant, s: Service, leaf: Leaf)
    requires TenantHas(t, leaf) && s.ownsTeam && (leaf.AppLeaf? ==> leaf.name in s.components)
    requires leaf.DatabaseLeaf? ==> OwnedDatabase(t, s) >= 0 && leaf.name == t.databases[OwnedDatabase(t, s)].name
    ensures Belongs(t, s, leaf)
  {
    hide Index;
    OwnedIsReferenced(t, s);
  }

  /** So does the source of another service of the team. */
  lemma OrphanedSourceStays(repo: Repository, q: Request, next: Repository, i: nat, j: nat, x: Service) returns (p: Path)
    requires Loads(repo) && Finalizes(repo, TenantsOf(repo), i, j, q) && Planned(repo, q, next, PlanServiceFinalize(TenantsOf(repo), i, q))
    requires var t := TenantsOf(repo)[i]; t.services[j].ownsTeam && x in t.services && x.name != t.services[j].name
    ensures p.Source? && p.service == x.name && p in repo && p in next && next[p] == repo[p] && !AnyService(TenantsOf(next), x.name)
  {
    hide Index, DropNamed, OwnedDatabase, Separate, Derived, Shape, Without, TenantHas, Execute, RequestOk, FilesAfter, Unanimous, Consistent, AnyService;
    var tenants := TenantsOf(repo);
    var plan, t := PlanServiceFinalize(tenants, i, q), tenants[i];
    FinalizationActions(repo, tenants, i, j, q);
    PathIsName(t, x);
    PathIsName(t, t.services[j]);
    p := SourceOf(repo, t, x);
    forall a | a in plan.actions ensures !About(a, p) {
    }
    UntouchedAfter(repo, plan, p);
    WithoutTeamNoService(tenants, i, x.name);
  }

  lemma SourceOf(repo: Repository, t: Tenant, x: Service) returns (p: Path)
    requires Loads(repo) && t in TenantsOf(repo) && x in t.services
    ensures p in repo && p.Source? && p.service == x.path
  {
    hide UniqueNames, AllNames, TeamOk, DatabaseOk, ApplicationOk, ValidName, ServiceLifecycleOk, HasEntry;
    assert TenantOk(repo.Keys, t);
    assert ServiceOk(repo.Keys, t.databases, x);
    p :| p in repo.Keys && p.Source? && p.service == x.path;
  }

  lemma FinalizeTracks(repo: Repository, q: Request, next: Repository, i: nat)
    requires Tracked(repo) && i < |TenantsOf(repo)| && TenantsOf(repo)[i].name == q.p.team && q.operation.ServiceFinalize?
    requires Planned(repo, q, next, PlanServiceFinalize(TenantsOf(repo), i, q))
    requires Separate(TenantsOf(repo)) && Derived(TenantsOf(repo)) && forall t <- TenantsOf(repo) :: Shape(t)
    ensures Tracked(next) <==> !Orphans(repo, q)
  {
    hide Index, PlanServiceFinalize, Separate, Derived, Shape, Execute, RequestOk, FilesAfter, Unanimous, Consistent, Valid, HoldsMore, Covers, FileTracked, TenantHas, Belongs;
    var tenants := TenantsOf(repo);
    var j := ServiceToFinalize(repo, tenants, i, q);
    var t := tenants[i];
    var s := t.services[j];
    OnlyOneOrphans(repo, q, i, j);
    if s.ownsTeam && HoldsMore(t, s) {
      DatabasesAreNamed(t);
      MoreByLeaf(t, s);
      if leaf :| TenantHas(t, leaf) && !Belongs(t, s, leaf) {
        OrphanedLeafStays(repo, q, next, i, j, leaf);
        assert !FileTracked(TenantsOf(next), Manifest(leaf)) by { UntrackedLeaf(TenantsOf(next), leaf); }
      } else {
        var x :| x in t.services && x.name != s.name;
        var p := OrphanedSourceStays(repo, q, next, i, j, x);
        assert !FileTracked(TenantsOf(next), p) by { UntrackedSource(TenantsOf(next), p); }
      }
    } else {
      ServiceFinalizeCovers(repo, tenants, i, j, q);
      CoveredIsTracked(repo, q, next, PlanServiceFinalize(tenants, i, q));
    }
  }

  lemma UntrackedLeaf(tenants: seq<Tenant>, leaf: Leaf)
    requires !HasLeaf(tenants, leaf)
    ensures !FileTracked(tenants, Manifest(leaf))
  {
  }

  lemma UntrackedSource(tenants: seq<Tenant>, p: Path)
    requires p.Source? && !AnyService(tenants, p.service)
    ensures !FileTracked(tenants, p)
  {
  }

  lemma ServiceToFinalize(repo: Repository, tenants: seq<Tenant>, i: nat, q: Request) returns (j: nat)
    requires i < |tenants| && Separate(tenants) && Derived(tenants) && (forall t <- tenants :: Shape(t))
    requires AllWrites(PlanServiceFinalize(tenants, i, q).actions)
    ensures Finalizes(repo, tenants, i, j, q) && tenants[i].services[j].name == q.p.name
  {
    hide Index, DropNamed, OwnedDatabase, Separate, Derived, Shape, Without, FinalizeService;
    RefusalFails(tenants, Conflict);
    RefusalFails(tenants, NotFound);
    j := Index(tenants[i].services, ServiceName, q.p.name);
  }

  /** There is one team and one service the request can mean. */
  lemma OnlyOneOrphans(repo: Repository, q: Request, i: nat, j: nat)
    requires Loads(repo) && i < |TenantsOf(repo)| && j < |TenantsOf(repo)[i].services| && Separate(TenantsOf(repo)) && q.operation.ServiceFinalize?
    requires TenantsOf(repo)[i].name == q.p.team && TenantsOf(repo)[i].services[j].name == q.p.name
    ensures var t := TenantsOf(repo)[i]; Orphans(repo, q) <==> t.services[j].ownsTeam && HoldsMore(t, t.services[j])
  {
    hide Valid, HoldsMore, Separate;
    var tenants := TenantsOf(repo);
    var t := tenants[i];
    assert t in tenants && t.services[j] in t.services;
    if Orphans(repo, q) {
      var u :| u in tenants && u.name == q.p.team && exists s <- u.services :: s.name == q.p.name && s.ownsTeam && HoldsMore(u, s);
      OneTenantOfName(tenants, u, t);
      var s :| s in u.services && s.name == q.p.name && s.ownsTeam && HoldsMore(u, s);
      OneServiceOfName(tenants, i, j, s);
    }
  }

  lemma OneServiceOfName(tenants: seq<Tenant>, i: nat, j: nat, s: Service)
    requires Separate(tenants) && i < |tenants| && j < |tenants[i].services| && s in tenants[i].services && s.name == tenants[i].services[j].name
    ensures s == tenants[i].services[j]
  {
    hide TenantHas, TenantHasService;
    SeparateTenant(tenants, i);
    var k :| 0 <= k < |tenants[i].services| && tenants[i].services[k] == s;
    assert ServiceName(tenants[i].services[k]) == ServiceName(tenants[i].services[j]);
  }

  // ---------------------------------------------------------------- every operation

  lemma StepCovers(repo: Repository, q: Request, next: Repository, i: nat)
    requires Loads(repo) && i < |TenantsOf(repo)| && TenantsOf(repo)[i].name == Target(q)
    requires !q.operation.TeamCreate? && !q.operation.ServiceScaffold? && !q.operation.ServiceFinalize?
    requires AllWrites(PlanIn(repo, TenantsOf(repo), i, q).actions)
    requires Separate(TenantsOf(repo)) && Derived(TenantsOf(repo)) && forall t <- TenantsOf(repo) :: Shape(t)
    ensures Covers(TenantsOf(repo), PlanIn(repo, TenantsOf(repo), i, q))
  {
    hide Covers, Loads, Separate, Derived, Shape, PlanTeamUpdate, PlanTeamDelete, PlanTeamFinalize, PlanAppCreate, PlanAppUpdate, PlanAppDelete,
         PlanAppFinalize, PlanDatabaseCreate, PlanDatabaseUpdate, PlanDatabaseDelete, PlanDatabaseFinalize, PlanServiceActivate, PlanServiceRetire,
         PlanServiceFinalize;
    var tenants := TenantsOf(repo);
    match q.operation
    case TeamUpdate => TeamUpdateCovers(tenants, i, q);
    case TeamDelete => TeamDeleteCovers(tenants, i, q);
    case TeamFinalize => TeamFinalizeCovers(tenants, i, q);
    case ServiceActivate => ServiceActivateCovers(tenants, i, q);
    case ServiceRetire => ServiceRetireCovers(tenants, i, q);
    case _ => EntryPlansCover(repo, tenants, i, q);
  }

  /** A request that goes through keeps every file tracked if and only if it does not
      finalize a service that takes a team with it which holds more than the service. */
  lemma StepTracks(repo: Repository, q: Request, next: Repository)
    requires Healthy(repo) && Tracked(repo) && Step(repo, q, next)
    ensures Tracked(next) <==> !Orphans(repo, q)
  {
    hide Execute, Consistent, RequestOk, FilesAfter, GapFree, Rendered, View, Valid, Unanimous, PlanIn, Step, UniqueNames, AllNames,
         PlanTeamCreate, PlanServiceScaffold, Index, Separate, Derived, Shape, Covers, Tracked;
    StepPlanned(repo, q, next);
    var tenants := TenantsOf(repo);
    if q.operation.TeamCreate? {
      TeamCreateCovers(tenants, q);
      CoveredIsTracked(repo, q, next, PlanOf(repo, tenants, q));
    } else if q.operation.ServiceScaffold? {
      UniqueTenants(repo);
      ServiceScaffoldCovers(tenants, q);
      CoveredIsTracked(repo, q, next, PlanOf(repo, tenants, q));
    } else {
      var i := PlanOfTarget(repo, q, next);
      if q.operation.ServiceFinalize? {
        assert PlanIn(repo, tenants, i, q) == PlanServiceFinalize(tenants, i, q) by { PlanOfFinalize(repo, tenants, i, q); }
        FinalizeTracks(repo, q, next, i);
      } else {
        StepCovers(repo, q, next, i);
        CoveredIsTracked(repo, q, next, PlanIn(repo, tenants, i, q));
      }
    }
  }

  lemma PlanOfFinalize(repo: Repository, tenants: seq<Tenant>, i: nat, q: Request)
    requires i < |tenants| && q.operation.ServiceFinalize?
    ensures PlanIn(repo, tenants, i, q) == PlanServiceFinalize(tenants, i, q)
  {
    hide PlanServiceFinalize;
  }

  /** Where every catalog starts. */
  lemma EmptyIsTracked()
    ensures Tracked(map[CatalogPath := CatalogFile([])])
  {
  }

  /** Over every run, no file is ever left behind if and only if no request orphans any. */
  lemma RunsStayTracked(repos: seq<Repository>, requests: seq<Request>)
    requires Run(repos, requests) && Healthy(repos[0]) && Tracked(repos[0])
    ensures (forall k :: 0 <= k < |repos| ==> Tracked(repos[k])) <==> forall k :: 0 <= k < |requests| ==> !Orphans(repos[k], requests[k])
  {
    hide Healthy, Tracked, Orphans, Step;
    if forall k :: 0 <= k < |repos| ==> Tracked(repos[k]) {
      forall k | 0 <= k < |requests| ensures !Orphans(repos[k], requests[k]) {
        RunsStayHealthy(repos, requests, k);
        assert Tracked(repos[k + 1]);
        StepTracks(repos[k], requests[k], repos[k + 1]);
      }
    }
    if forall k :: 0 <= k < |requests| ==> !Orphans(repos[k], requests[k]) {
      forall k | 0 <= k < |repos| ensures Tracked(repos[k]) {
        TrackedUpTo(repos, requests, k);
      }
    }
  }

  lemma {:induction false} TrackedUpTo(repos: seq<Repository>, requests: seq<Request>, k: nat)
    requires Run(repos, requests) && Healthy(repos[0]) && Tracked(repos[0]) && k < |repos|
    requires forall j :: 0 <= j < k ==> !Orphans(repos[j], requests[j])
    ensures Tracked(repos[k])
    decreases k
  {
    hide Healthy, Tracked, Orphans, Step;
    if k > 0 {
      TrackedUpTo(repos, requests, k - 1);
      RunsStayHealthy(repos, requests, k - 1);
      assert Step(repos[k - 1], requests[k - 1], repos[k - 1 + 1]);
      StepTracks(repos[k - 1], requests[k - 1], repos[k]);
    }
  }

  // ---------------------------------------------------------------- an application that is left behind

  const EXTRA := Entry("extra", AppLeaf("extra"), "", Active, "")
  const NOTHING := Parameters("", "", [], [], "", "", "", "", "", 0, 0, 0, "", 0, NO_SIZE, "", "", "", "", "", false, NoTemplate, Malformed(""), false, false)

  /** A team that a retiring service owns, with an active application of its own. */
  function Shop(id: string): Tenant {
    Tenant("shop", TeamLeaf("shop"), ["ops"], Retiring, id, [EXTRA], [],
           [Service("shop", "shop", ReactStatic, Version(0, 1, 0), ["shop"], "", true, false, Retiring, id)])
  }

  const EXTRA_FILE := AppFile("shop", NOTHING.(name := "extra"), true)
  const TEAM_FILES := {Manifest(TeamLeaf("shop")), Kustomization(TeamLeaf("shop"))}
  const EXTRA_FILES := {Manifest(AppLeaf("extra")), Kustomization(AppLeaf("extra"))}
  const SHOP_FILES := set f | f in SourceFiles(ReactStatic) :: Source("shop", f)

  function ShopFile(p: Path, id: string): File {
    match p
    case CatalogPath => CatalogFile([Shop(id)])
    case Manifest(leaf) => if leaf.TeamLeaf? then Marked(TeamFile("shop", NOTHING), id, false) else EXTRA_FILE
    case Kustomization(leaf) => KustomizationFile(leaf)
    case _ => Text("")
  }

  function ShopRepository(id: string): Repository {
    map p | p in {CatalogPath} + TEAM_FILES + EXTRA_FILES + SHOP_FILES :: ShopFile(p, id)
  }

  function ShopRequest(id: string): Request {
    Request(id, ServiceFinalize, NOTHING.(team := "shop", name := "shop", deletionRequest := id), true)
  }

  lemma ShopNames()
    ensures ValidName("shop", 48) && ValidName("shop", 58) && ValidName("shop", 63) && ValidName("extra", 63) && OwnersOk(["ops"])
  {
    assert "ops"[0] == 'o' && "ops"[1] == 'p' && "ops"[2] == 's';
    assert OwnerOk("ops");
  }

  lemma ShopPaths(id: string)
    ensures forall p :: p in ShopRepository(id) <==> p == CatalogPath || p in TEAM_FILES || p in EXTRA_FILES
                                                     || (p.Source? && p.service == "shop" && p.file in SourceFiles(ReactStatic))
    ensures forall p <- ShopRepository(id) :: ShopRepository(id)[p] == ShopFile(p, id)
  {
    hide ShopFile, SourceFiles;
  }

  lemma ShopIsValid(id: string)
    requires IsUuid(id)
    ensures Valid(ShopRepository(id).Keys, [Shop(id)])
  {
    hide IsUuid, ValidName, OwnersOk, ShopRepository, TenantOk;
    ShopPaths(id);
    AllNamesOne(Shop(id));
    NamesOne(EXTRA, EntryName);
    NamesOne(Shop(id).services[0], ServiceName);
    assert TenantOk(ShopRepository(id).Keys, Shop(id)) by { ShopTenant(id); }
  }

  lemma ShopTenant(id: string)
    requires IsUuid(id)
    ensures TenantOk(ShopRepository(id).Keys, Shop(id))
  {
    hide IsUuid, ValidName, OwnersOk, ShopRepository, SourceFiles, ShopFile, LeafExists, SourceExists;
    ShopNames();
    ShopExists(id);
  }

  lemma ShopExists(id: string)
    ensures var paths := ShopRepository(id).Keys;
            LeafExists(paths, TeamLeaf("shop")) && LeafExists(paths, AppLeaf("extra")) && SourceExists(paths, "shop")
  {
    hide ShopRepository, SourceFiles, ShopFile;
    ShopPaths(id);
    var paths := ShopRepository(id).Keys;
    assert Manifest(TeamLeaf("shop")) in paths && InLeaf(Manifest(TeamLeaf("shop")), TeamLeaf("shop"));
    assert Manifest(AppLeaf("extra")) in paths && InLeaf(Manifest(AppLeaf("extra")), AppLeaf("extra"));
    VersionIsListed(ReactStatic);
    assert Source("shop", VersionFile) in paths;
  }

  lemma ShopIsConsistent(id: string)
    ensures Consistent(ShopRepository(id), [Shop(id)])
  {
    hide ShopRepository, TeamFile;
    ShopPaths(id);
    forall l | CatalogLists([Shop(id)], l) ensures LeafAgrees(ShopRepository(id), l) && !l.leaf.DatabaseLeaf? {
      assert TenantLists(Shop(id), l);
      assert Manifest(l.leaf) in TEAM_FILES || Manifest(l.leaf) in EXTRA_FILES;
    }
  }

  lemma ShopIsTracked(id: string)
    requires IsUuid(id)
    ensures Healthy(ShopRepository(id)) && Tracked(ShopRepository(id))
  {
    hide ShopRepository, SourceFiles, IsUuid, Valid, Consistent;
    ShopPaths(id);
    ShopIsValid(id);
    ShopIsConsistent(id);
    assert TenantHas(Shop(id), TeamLeaf("shop")) && TenantHas(Shop(id), AppLeaf("extra")) && TenantHasService(Shop(id), "shop");
    ServiceListed([Shop(id)], "shop");
  }

  lemma ShopPlan(id: string)
    ensures var s := Shop(id).services[0];
            PlanOf(ShopRepository(id), [Shop(id)], ShopRequest(id)) == Plan([], [DropSource(s), DropLeaf(TeamLeaf("shop"))])
    ensures GapFree([Shop(id)], ShopRequest(id))
  {
    hide ShopRepository;
    var t := Shop(id);
    assert Index([t], TenantName, "shop") == 0 && Index(t.services, ServiceName, "shop") == 0;
    assert ["shop"][..0] == [];
    assert Index([EXTRA], EntryName, "shop") == -1;
    assert DropNamed([EXTRA], ["shop"], ShopRequest(id).p) == [];
    assert Without([t], TenantName, ["shop"]) == [];
  }

  lemma ShopTeamGoes(id: string)
    ensures Blocked(ShopRepository(id), DropLeaf(TeamLeaf("shop"))).None?
  {
    hide ShopRepository, ValidName, SourceFiles, ShopFile;
    ShopNames();
    ShopPaths(id);
    assert Manifest(TeamLeaf("shop")) in ShopRepository(id) && InLeaf(Manifest(TeamLeaf("shop")), TeamLeaf("shop"));
  }

  lemma ShopSourceGoes(id: string)
    ensures Blocked(ShopRepository(id), DropSource(Shop(id).services[0])).None?
  {
    hide ShopRepository, ValidName, SourceFiles, ShopFile;
    ShopNames();
    ShopPaths(id);
    assert forall f <- SourceFiles(ReactStatic) :: !f.Unlisted? by { NoneUnlisted(); }
  }

  lemma NoneUnlisted()
    ensures forall f <- SourceFiles(ReactStatic) :: !f.Unlisted?
  {
  }

  lemma ShopIsClear(id: string)
    ensures Clear(ShopRepository(id), [DropSource(Shop(id).services[0]), DropLeaf(TeamLeaf("shop"))])
  {
    hide ShopRepository, Blocked;
    ShopTeamGoes(id);
    ShopSourceGoes(id);
  }

  /** The finalization goes through and leaves an active application nobody lists. */
  lemma AnApplicationIsLeftBehind(id: string) returns (next: Repository)
    requires IsUuid(id)
    ensures Healthy(ShopRepository(id)) && Tracked(ShopRepository(id)) && Step(ShopRepository(id), ShopRequest(id), next) && !Tracked(next)
    ensures Loads(next) && Manifest(AppLeaf("extra")) in next && next[Manifest(AppLeaf("extra"))] == EXTRA_FILE && !HasLeaf(TenantsOf(next), AppLeaf("extra"))
  {
    hide IsUuid, ShopRepository, Consistent, Valid, Execute, PlanOf, GapFree, Clear, Step, Tracked, Planned;
    var repo, q := ShopRepository(id), ShopRequest(id);
    ShopNames();
    ShopPaths(id);
    ShopIsTracked(id);
    ShopPlan(id);
    ShopIsClear(id);
    next := ClearStep(repo, q);
    assert Orphans(repo, q) by { assert EXTRA in Shop(id).applications; }
    StepTracks(repo, q, next);
    ShopLeaves(id, next);
  }

  lemma ShopLeaves(id: string, next: Repository)
    requires Healthy(ShopRepository(id)) && Step(ShopRepository(id), ShopRequest(id), next)
    ensures Loads(next) && Manifest(AppLeaf("extra")) in next && next[Manifest(AppLeaf("extra"))] == EXTRA_FILE && !HasLeaf(TenantsOf(next), AppLeaf("extra"))
  {
    hide ShopRepository, Consistent, Valid, Execute, PlanOf, GapFree, Step, FilesAfter, Unanimous, RequestOk;
    var repo, q := ShopRepository(id), ShopRequest(id);
    ShopPaths(id);
    ShopPlan(id);
    StepPlanned(repo, q, next);
    KeptLeafAfter(repo, PlanOf(repo, TenantsOf(repo), q), AppLeaf("extra"));
  }
}
