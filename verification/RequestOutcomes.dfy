/** Exactly what the catalog lists after a request, entry by entry, and that no file changes which the request is not about. */
module RequestOutcomes {
  import opened Wrappers
  import opened Catalog
  import opened CatalogFacts
  import opened ChangePlan
  import opened ChangeSets
  import opened OverlayFacts
  import opened RenderSafety
  import opened RenderAccounting
  import opened ServiceAccounting
  import opened CatalogPreserved
  import opened OperationSoundness
  import opened ServiceSoundness
  import opened ManifestFields
  import opened RenderRuns
  import opened ServiceLifecycle
  import opened RequestEffects

  // ---------------------------------------------------------------- what a request is about

  ghost function TeamOf(q: Request): string {
    if q.operation in {TeamCreate, TeamUpdate, TeamDelete, TeamFinalize} then q.p.name else q.p.team
  }

  /** A team without entries. */
  ghost predicate Blank(t: Tenant, name: string, owners: seq<string>) {
    exists o :: InOrder(o, owners) && t == Tenant(name, TeamLeaf(name), o, Active, "", [], [], [])
  }

  /** The team a request starts from: a blank one, or the listed one of its name. */
  ghost predicate StartsFrom(tenants: seq<Tenant>, q: Request, t: Tenant) {
    if q.operation == TeamCreate then Blank(t, q.p.name, q.p.owners)
    else if q.operation == ServiceScaffold && q.p.createTeam then Blank(t, q.p.team, [q.p.team + "-owners"])
    else t in tenants && t.name == TeamOf(q)
  }

  /** The service that an activation, a retirement or a finalization is about. */
  ghost predicate Chooses(t: Tenant, q: Request, s: Option<Service>) {
    if q.operation in {ServiceActivate, ServiceRetire, ServiceFinalize} then s.Some? && s.value in t.services && s.value.name == q.p.name else s.None?
  }

  /** An entry that belongs to the chosen service: a component, or the database it owns. */
  ghost predicate Part(s: Option<Service>, databases: bool, name: string) {
    s.Some? && if databases then s.value.ownsDatabase && name == s.value.databaseRef else name in s.value.components
  }

  /** The database a component refers to. */
  ghost function PartRef(s: Option<Service>, name: string): string {
    if s.Some? && s.value.template == FullStack && name != s.value.name then s.value.databaseRef else ""
  }

  // ---------------------------------------------------------------- what becomes of the entries

  /** What becomes of a listed application or database. */
  ghost function EntryBecomes(q: Request, s: Option<Service>, databases: bool, e: Entry): Option<Entry> {
    var hit, retired := e.name == q.p.name, e.(lifecycle := Retiring, request := q.id);
    match q.operation
    case AppUpdate => Some(if hit && !databases then e.(databaseRef := q.p.databaseRef) else e)
    case AppDelete => Some(if hit && !databases then retired else e)
    case AppFinalize => if hit && !databases then None else Some(e)
    case DatabaseDelete => Some(if hit && databases then retired else e)
    case DatabaseFinalize => if hit && databases then None else Some(e)
    case TeamDelete => Some(retired)
    case ServiceActivate => Some(if !databases && Part(s, false, e.name) then e.(databaseRef := PartRef(s, e.name)) else e)
    case ServiceRetire => Some(if Part(s, databases, e.name) then retired else e)
    case ServiceFinalize => if Part(s, databases, e.name) then None else Some(e)
    case _ => Some(e)
  }

  /** A new entry. */
  ghost predicate EntryAdded(t: Tenant, q: Request, s: Option<Service>, databases: bool, e: Entry) {
    match q.operation
    case AppCreate => !databases && e == Entry(q.p.name, AppLeaf(q.p.name), q.p.databaseRef, Active, "")
    case DatabaseCreate => databases && e == Entry(q.p.name, DatabaseLeaf(q.p.name), "", Active, "")
    case DatabaseRestore => databases && e == Entry(q.p.name, DatabaseLeaf(q.p.name), "", Active, "")
    case ServiceScaffold => databases && q.p.withDatabase && e == Entry(q.p.name, DatabaseLeaf(q.p.name), "", Active, "")
    case ServiceActivate =>
      !databases && Part(s, false, e.name) && !HasEntry(t.applications, e.name) && e == Entry(e.name, AppLeaf(e.name), PartRef(s, e.name), Active, "")
    case _ => false
  }

  ghost predicate EntriesBecome(t: Tenant, now: Tenant, q: Request, s: Option<Service>, databases: bool) {
    forall e :: e in EntriesOf(now, databases) <==>
      EntryAdded(t, q, s, databases, e) || exists was <- EntriesOf(t, databases) :: EntryBecomes(q, s, databases, was) == Some(e)
  }

  /** What becomes of a listed service. */
  ghost function ServiceBecomes(q: Request, x: Service): Option<Service> {
    match q.operation
    case TeamDelete => Some(x.(lifecycle := Retiring, request := q.id))
    case ServiceActivate => Some(if x.name == q.p.name then x.(version := q.p.version, lifecycle := Active) else x)
    case ServiceRetire => Some(if x.name == q.p.name then x.(lifecycle := Retiring, request := q.id) else x)
    case ServiceFinalize => if x.name == q.p.name then None else Some(x)
    case _ => Some(x)
  }

  ghost predicate ServicesBecome(t: Tenant, now: Tenant, q: Request) {
    forall x :: x in now.services <==>
      (q.operation == ServiceScaffold && x == ScaffoldedService(q.p)) || exists was <- t.services :: ServiceBecomes(q, was) == Some(x)
  }

  /** What becomes of the team. */
  ghost predicate TeamBecomes(t: Tenant, now: Tenant, q: Request, s: Option<Service>) {
    && now.name == t.name && now.path == t.path
    && (if q.operation == TeamUpdate then InOrder(now.owners, q.p.owners) else now.owners == t.owners)
    && (if q.operation == TeamDelete || (q.operation == ServiceRetire && s.Some? && s.value.ownsTeam) then now.lifecycle == Retiring && now.request == q.id
        else now.lifecycle == t.lifecycle && now.request == t.request)
    && EntriesBecome(t, now, q, s, false) && EntriesBecome(t, now, q, s, true) && ServicesBecome(t, now, q)
  }

  ghost predicate Replaces(tenants: seq<Tenant>, after: seq<Tenant>, name: string, now: Tenant) {
    forall u :: u in after <==> u == now || (u in tenants && u.name != name)
  }

  /** The team leaves, or becomes what the request says; every other team is as it was. */
  ghost predicate CatalogAfter(tenants: seq<Tenant>, after: seq<Tenant>, q: Request) {
    exists t, s :: StartsFrom(tenants, q, t) && Chooses(t, q, s) &&
      if q.operation == TeamFinalize || (q.operation == ServiceFinalize && s.Some? && s.value.ownsTeam)
      then forall u :: u in after <==> u in tenants && u.name != TeamOf(q)
      else exists now :: TeamBecomes(t, now, q, s) && Replaces(tenants, after, TeamOf(q), now)
  }

  // ---------------------------------------------------------------- lists

  lemma ReplacedAt<T>(items: seq<T>, key: T -> string, j: nat, x: T)
    requires DistinctBy(items, key) && j < |items| && key(x) == key(items[j])
    ensures forall y :: y in items[j := x] <==> y == x || (y in items && key(y) != key(x))
    ensures forall y <- items :: key(y) == key(x) ==> y == items[j]
  {
    forall y ensures y in items[j := x] <==> y == x || (y in items && key(y) != key(x)) {
      if y in items[j := x] {
        var k :| 0 <= k < |items| && items[j := x][k] == y;
      }
      if y == x {
        assert items[j := x][j] == y;
      } else if y in items && key(y) != key(x) {
        var k :| 0 <= k < |items| && items[k] == y;
        assert items[j := x][k] == y;
      }
    }
  }

  lemma TeamInPlace(tenants: seq<Tenant>, i: nat, now: Tenant)
    requires Separate(tenants) && i < |tenants| && now.name == tenants[i].name
    ensures Replaces(tenants, tenants[i := now], tenants[i].name, now)
  {
    hide TenantHas, TenantHasService;
    TeamsDiffer(tenants);
    ReplacedAt(tenants, TenantName, i, now);
  }

  lemma TeamsDiffer(tenants: seq<Tenant>)
    requires Separate(tenants)
    ensures DistinctBy(tenants, TenantName)
  {
    hide DistinctBy, TenantHasService;
    assert forall i, k :: 0 <= i < |tenants| && 0 <= k < |tenants| && TenantName(tenants[i]) == TenantName(tenants[k]) ==> i == k by {
      forall i, k | 0 <= i < |tenants| && 0 <= k < |tenants| && TenantName(tenants[i]) == TenantName(tenants[k]) ensures i == k {
        assert TenantHas(tenants[i], TeamLeaf(tenants[i].name)) && TenantHas(tenants[k], TeamLeaf(tenants[i].name));
      }
    }
    DistinctIs(tenants, TenantName);
  }

  lemma DistinctIs<T>(items: seq<T>, key: T -> string)
    requires forall i, k :: 0 <= i < |items| && 0 <= k < |items| && key(items[i]) == key(items[k]) ==> i == k
    ensures DistinctBy(items, key)
  {
  }

  // ---------------------------------------------------------------- one entry

  /** Position by position. */
  lemma Pointwise(t: Tenant, now: Tenant, q: Request, s: Option<Service>, databases: bool)
    requires |EntriesOf(now, databases)| == |EntriesOf(t, databases)|
    requires forall k :: 0 <= k < |EntriesOf(t, databases)| ==> EntryBecomes(q, s, databases, EntriesOf(t, databases)[k]) == Some(EntriesOf(now, databases)[k])
    requires forall e :: !EntryAdded(t, q, s, databases, e)
    ensures EntriesBecome(t, now, q, s, databases)
  {
    hide EntryAdded, EntryBecomes;
    var before, after := EntriesOf(t, databases), EntriesOf(now, databases);
    forall e ensures e in after <==> exists was <- before :: EntryBecomes(q, s, databases, was) == Some(e) {
      if e in after {
        var k :| 0 <= k < |after| && after[k] == e;
        assert before[k] in before;
      }
      if exists was <- before :: EntryBecomes(q, s, databases, was) == Some(e) {
        var was :| was in before && EntryBecomes(q, s, databases, was) == Some(e);
        var k :| 0 <= k < |before| && before[k] == was;
        assert after[k] == e;
      }
    }
  }

  /** Some are taken out and the others stay. */
  lemma Filtered(t: Tenant, now: Tenant, q: Request, s: Option<Service>, databases: bool)
    requires forall e :: e in EntriesOf(now, databases) <==> e in EntriesOf(t, databases) && EntryBecomes(q, s, databases, e).Some?
    requires forall e :: EntryBecomes(q, s, databases, e).Some? ==> EntryBecomes(q, s, databases, e).value == e
    requires forall e :: !EntryAdded(t, q, s, databases, e)
    ensures EntriesBecome(t, now, q, s, databases)
  {
    hide EntryAdded, EntryBecomes;
    forall e ensures e in EntriesOf(now, databases) <==> exists was <- EntriesOf(t, databases) :: EntryBecomes(q, s, databases, was) == Some(e) {
      if e in EntriesOf(now, databases) {
        assert EntryBecomes(q, s, databases, e) == Some(e);
      }
    }
  }

  lemma NothingBecomes(t: Tenant, now: Tenant, q: Request, s: Option<Service>, databases: bool)
    requires EntriesOf(now, databases) == EntriesOf(t, databases)
    requires forall e :: !EntryAdded(t, q, s, databases, e)
    requires forall e <- EntriesOf(t, databases) :: EntryBecomes(q, s, databases, e) == Some(e)
    ensures EntriesBecome(t, now, q, s, databases)
  {
    hide EntryAdded, EntryBecomes;
    Pointwise(t, now, q, s, databases);
  }

  lemma SameServices(t: Tenant, now: Tenant, q: Request)
    requires now.services == t.services && q.operation !in {TeamDelete, ServiceScaffold, ServiceActivate, ServiceRetire, ServiceFinalize}
    ensures ServicesBecome(t, now, q)
  {
    forall x | x in t.services ensures ServiceBecomes(q, x) == Some(x) {
    }
  }

  /** One entry is replaced. */
  lemma OneBecomes(t: Tenant, now: Tenant, q: Request, databases: bool, j: nat, e: Entry)
    requires DistinctBy(EntriesOf(t, databases), EntryName) && j < |EntriesOf(t, databases)|
    requires EntriesOf(t, databases)[j].name == q.p.name == e.name && EntriesOf(now, databases) == EntriesOf(t, databases)[j := e]
    requires EntryBecomes(q, None, databases, EntriesOf(t, databases)[j]) == Some(e)
    requires forall x :: !EntryAdded(t, q, None, databases, x)
    requires forall x: Entry :: x.name != q.p.name ==> EntryBecomes(q, None, databases, x) == Some(x)
    ensures EntriesBecome(t, now, q, None, databases)
  {
    hide EntryAdded, EntryBecomes;
    var entries := EntriesOf(t, databases);
    assert forall k :: 0 <= k < |entries| && k != j ==> EntryName(entries[k]) != EntryName(entries[j]);
    Pointwise(t, now, q, None, databases);
  }

  /** One entry is taken out. */
  lemma OneLeaves(t: Tenant, now: Tenant, q: Request, databases: bool)
    requires EntriesOf(now, databases) == Without(EntriesOf(t, databases), EntryName, [q.p.name])
    requires forall x :: !EntryAdded(t, q, None, databases, x)
    requires forall x: Entry :: EntryBecomes(q, None, databases, x) == if x.name == q.p.name then None else Some(x)
    ensures EntriesBecome(t, now, q, None, databases)
  {
    hide EntryAdded, EntryBecomes, Without;
    assert forall y :: EntryName(y) !in [q.p.name] <==> y.name != q.p.name;
    Filtered(t, now, q, None, databases);
  }

  /** One entry is sorted in. */
  lemma OneJoins(t: Tenant, now: Tenant, q: Request, databases: bool, e: Entry)
    requires EntriesOf(now, databases) == AddEntry(EntriesOf(t, databases), e)
    requires forall x :: EntryAdded(t, q, None, databases, x) <==> x == e
    requires forall x: Entry :: EntryBecomes(q, None, databases, x) == Some(x)
    ensures EntriesBecome(t, now, q, None, databases)
  {
    hide EntryAdded, EntryBecomes, SortBy;
    var entries := EntriesOf(t, databases);
    forall y ensures y in EntriesOf(now, databases) <==> y == e || exists was <- entries :: EntryBecomes(q, None, databases, was) == Some(y) {
      SortedMembers(entries + [e], EntryName, y);
      if y in entries {
        assert EntryBecomes(q, None, databases, y) == Some(y);
      }
    }
  }

  /** A request about one application or database. */
  lemma EntryOutcome(repo: Repository, q: Request, next: Repository, i: nat)
    requires Loads(repo) && i < |TenantsOf(repo)| && TenantsOf(repo)[i].name == Target(q) && Separate(TenantsOf(repo)) && Derived(TenantsOf(repo))
    requires q.operation in {AppCreate, AppUpdate, AppDelete, AppFinalize, DatabaseCreate, DatabaseRestore, DatabaseUpdate, DatabaseDelete, DatabaseFinalize}
    requires Planned(repo, q, next, PlanIn(repo, TenantsOf(repo), i, q))
    ensures CatalogAfter(TenantsOf(repo), TenantsOf(next), q)
  {
    hide Execute, RequestOk, FilesAfter, Unanimous, Healthy, Loads, Separate, Derived, Index, AddEntry, Without, AnyApplication, AnyDatabase, DatabaseActive,
         DatabaseInUse, UpdatedDatabase, AppFile, DatabaseManifest, TeamBecomes, Replaces, DistinctBy;
    var tenants, p := TenantsOf(repo), q.p;
    var t, after := tenants[i], TenantsOf(next);
    RefusalFails(tenants, Conflict);
    RefusalFails(tenants, NotFound);
    EntryTeam(repo, tenants, i, q, after);
    assert t in tenants && StartsFrom(tenants, q, t) && Chooses(t, q, None);
    var now := after[i];
    TeamInPlace(tenants, i, now);
  }

  lemma EntryTeam(repo: Repository, tenants: seq<Tenant>, i: nat, q: Request, after: seq<Tenant>)
    requires i < |tenants| && Separate(tenants)
    requires q.operation in {AppCreate, AppUpdate, AppDelete, AppFinalize, DatabaseCreate, DatabaseRestore, DatabaseUpdate, DatabaseDelete, DatabaseFinalize}
    requires AllWrites(PlanIn(repo, tenants, i, q).actions) && after == PlanIn(repo, tenants, i, q).tenants
    ensures |after| == |tenants| && after == tenants[i := after[i]] && after[i].name == tenants[i].name && TeamBecomes(tenants[i], after[i], q, None)
  {
    hide Index, AddEntry, Without, AnyApplication, AnyDatabase, DatabaseActive, DatabaseInUse, UpdatedDatabase, AppFile, DatabaseManifest, DistinctBy,
         EntriesBecome, ServicesBecome, Separate;
    RefusalFails(tenants, Conflict);
    RefusalFails(tenants, NotFound);
    SeparateTenant(tenants, i);
    var t, now, p := tenants[i], after[i], q.p;
    var a, d := Index(t.applications, EntryName, p.name), Index(t.databases, EntryName, p.name);
    if q.operation.DatabaseUpdate? && UpdatedDatabase(repo, p).Err? {
      RefusalFails(tenants, UpdatedDatabase(repo, p).error);
    }
    SameServices(t, now, q);
    match q.operation {
      case AppCreate => OneJoins(t, now, q, false, NewEntry(AppLeaf(p.name), p.databaseRef)); NothingBecomes(t, now, q, None, true);
      case AppUpdate => OneBecomes(t, now, q, false, a, now.applications[a]); NothingBecomes(t, now, q, None, true);
      case AppDelete => OneBecomes(t, now, q, false, a, now.applications[a]); NothingBecomes(t, now, q, None, true);
      case AppFinalize => OneLeaves(t, now, q, false); NothingBecomes(t, now, q, None, true);
      case DatabaseUpdate => NothingBecomes(t, now, q, None, false); NothingBecomes(t, now, q, None, true);
      case DatabaseDelete => OneBecomes(t, now, q, true, d, now.databases[d]); NothingBecomes(t, now, q, None, false);
      case DatabaseFinalize => OneLeaves(t, now, q, true); NothingBecomes(t, now, q, None, false);
      case _ => OneJoins(t, now, q, true, NewEntry(DatabaseLeaf(p.name), "")); NothingBecomes(t, now, q, None, false);
    }
  }

  // ---------------------------------------------------------------- whole teams

  lemma TeamCreateOutcome(repo: Repository, q: Request, next: Repository)
    requires Loads(repo) && q.operation.TeamCreate? && Planned(repo, q, next, PlanTeamCreate(TenantsOf(repo), q))
    ensures CatalogAfter(TenantsOf(repo), TenantsOf(next), q)
  {
    hide Execute, RequestOk, FilesAfter, Unanimous, Healthy, Loads, Index, TeamFile, SortBy, InOrder, EntriesBecome, ServicesBecome;
    var tenants, after := TenantsOf(repo), TenantsOf(next);
    RefusalFails(tenants, Conflict);
    var team := NewTenant(q.p.name, q.p.owners);
    NormalizeOrders(q.p.owners);
    assert StartsFrom(tenants, q, team) && Chooses(team, q, None);
    BlankStays(team, q);
    assert forall k :: 0 <= k < |tenants| ==> TenantName(tenants[k]) != q.p.name;
    assert Replaces(tenants, after, TeamOf(q), team);
  }

  lemma BlankStays(team: Tenant, q: Request)
    requires q.operation.TeamCreate? && team.applications == [] && team.databases == [] && team.services == []
    ensures TeamBecomes(team, team, q, None)
  {
    NothingBecomes(team, team, q, None, false);
    NothingBecomes(team, team, q, None, true);
    SameServices(team, team, q);
  }

  lemma TeamOutcome(repo: Repository, q: Request, next: Repository, i: nat)
    requires Loads(repo) && i < |TenantsOf(repo)| && TenantsOf(repo)[i].name == Target(q) && Separate(TenantsOf(repo))
    requires q.operation in {TeamUpdate, TeamDelete, TeamFinalize} && Planned(repo, q, next, PlanIn(repo, TenantsOf(repo), i, q))
    ensures CatalogAfter(TenantsOf(repo), TenantsOf(next), q)
  {
    hide Execute, RequestOk, FilesAfter, Unanimous, Healthy, Loads, Separate, Index, Without, TeamBecomes, Replaces, TeamFile, Approvals, Drops, SourceDrops,
         RetireTenant, Normalize;
    var tenants, after := TenantsOf(repo), TenantsOf(next);
    var t := tenants[i];
    RefusalFails(tenants, Conflict);
    assert t in tenants && StartsFrom(tenants, q, t) && Chooses(t, q, None);
    if q.operation.TeamFinalize? {
      assert forall u :: TenantName(u) !in [q.p.name] <==> u.name != q.p.name;
    } else {
      TeamChanges(t, q);
      TeamInPlace(tenants, i, after[i]);
    }
  }

  lemma TeamChanges(t: Tenant, q: Request)
    ensures q.operation.TeamUpdate? ==> TeamBecomes(t, t.(owners := Normalize(q.p.owners)), q, None)
    ensures q.operation.TeamDelete? ==> TeamBecomes(t, RetireTenant(t, q.id), q, None) && RetireTenant(t, q.id).name == t.name
  {
    hide Normalize, InOrder, EntriesBecome, ServicesBecome;
    if q.operation.TeamUpdate? {
      var now := t.(owners := Normalize(q.p.owners));
      NormalizeOrders(q.p.owners);
      NothingBecomes(t, now, q, None, false);
      NothingBecomes(t, now, q, None, true);
      SameServices(t, now, q);
    } else if q.operation.TeamDelete? {
      var now := RetireTenant(t, q.id);
      AllEntriesRetire(t, now, q, false);
      AllEntriesRetire(t, now, q, true);
      AllServicesRetire(t, now, q);
    }
  }

  lemma AllEntriesRetire(t: Tenant, now: Tenant, q: Request, databases: bool)
    requires q.operation.TeamDelete? && EntriesOf(now, databases) == RetireEntries(EntriesOf(t, databases), q.id)
    ensures EntriesBecome(t, now, q, None, databases)
  {
    hide EntriesOf;
    Pointwise(t, now, q, None, databases);
  }

  lemma AllServicesRetire(t: Tenant, now: Tenant, q: Request)
    requires q.operation.TeamDelete? && now.services == RetireServices(t.services, q.id)
    ensures ServicesBecome(t, now, q)
  {
    forall x ensures x in now.services <==> exists was <- t.services :: ServiceBecomes(q, was) == Some(x) {
      if x in now.services {
        var k :| 0 <= k < |now.services| && now.services[k] == x;
        assert ServiceBecomes(q, t.services[k]) == Some(x);
      }
      if exists was <- t.services :: ServiceBecomes(q, was) == Some(x) {
        var was :| was in t.services && ServiceBecomes(q, was) == Some(x);
        var k :| 0 <= k < |t.services| && t.services[k] == was;
        assert now.services[k] == x;
      }
    }
  }

  // ---------------------------------------------------------------- scaffold

  lemma ScaffoldChanges(t: Tenant, q: Request)
    requires q.operation.ServiceScaffold?
    ensures TeamBecomes(t, WithService(t, q.p), q, None)
  {
    hide SortBy, EntryBecomes, EntryAdded;
    var now, p := WithService(t, q.p), q.p;
    assert forall e, d :: EntryBecomes(q, None, d, e) == Some(e) by { ScaffoldKeepsEntries(q); }
    if p.withDatabase {
      OneJoins(t, now, q, true, NewEntry(DatabaseLeaf(p.name), "")) by { ScaffoldAdds(t, q); }
    } else {
      NothingBecomes(t, now, q, None, true) by { ScaffoldAdds(t, q); }
    }
    NothingBecomes(t, now, q, None, false) by { ScaffoldAdds(t, q); }
    assert NewService(p) == ScaffoldedService(p);
    forall x ensures x in now.services <==> x == ScaffoldedService(p) || exists was <- t.services :: ServiceBecomes(q, was) == Some(x) {
      SortedMembers(t.services + [NewService(p)], ServiceName, x);
      if x in t.services {
        assert ServiceBecomes(q, x) == Some(x);
      }
    }
  }

  lemma ScaffoldKeepsEntries(q: Request)
    requires q.operation.ServiceScaffold?
    ensures forall e, d :: EntryBecomes(q, None, d, e) == Some(e)
  {
  }

  lemma ScaffoldAdds(t: Tenant, q: Request)
    requires q.operation.ServiceScaffold?
    ensures forall e :: EntryAdded(t, q, None, true, e) <==> q.p.withDatabase && e == NewEntry(DatabaseLeaf(q.p.name), "")
    ensures forall e :: !EntryAdded(t, q, None, false, e)
  {
  }

  lemma ScaffoldOutcome(repo: Repository, q: Request, next: Repository)
    requires Loads(repo) && q.operation.ServiceScaffold? && Planned(repo, q, next, PlanServiceScaffold(TenantsOf(repo), q)) && UniqueNames(AllNames(TenantsOf(repo)))
    ensures CatalogAfter(TenantsOf(repo), TenantsOf(next), q)
  {
    hide Execute, RequestOk, FilesAfter, Unanimous, Healthy, Loads, Index, SortBy, ServiceTeam, TeamFile, ScaffoldActions, WithService, UniqueNames, AllNames,
         AnyService, DatabaseActive, TeamBecomes, Separate, InOrder;
    var p, tenants, after := q.p, TenantsOf(repo), TenantsOf(next);
    var i := Index(tenants, TenantName, p.team);
    RefusalFails(tenants, Conflict);
    RefusalFails(tenants, NotFound);
    UniqueIsSeparate(tenants);
    if i >= 0 {
      FailsLast([]);
      var t := tenants[i];
      ScaffoldChanges(t, q);
      ScaffoldNames(t, p);
      TeamInPlace(tenants, i, WithService(t, p));
      assert t in tenants && StartsFrom(tenants, q, t) && Chooses(t, q, None);
    } else {
      NewTeamOutcome(repo, q, next);
    }
  }

  lemma ScaffoldNames(t: Tenant, p: Parameters)
    ensures WithService(t, p).name == t.name
  {
    hide SortBy;
  }

  lemma NewTeamOutcome(repo: Repository, q: Request, next: Repository)
    requires Loads(repo) && q.operation.ServiceScaffold? && Planned(repo, q, next, PlanServiceScaffold(TenantsOf(repo), q)) && UniqueNames(AllNames(TenantsOf(repo)))
    requires Index(TenantsOf(repo), TenantName, q.p.team) < 0
    ensures CatalogAfter(TenantsOf(repo), TenantsOf(next), q)
  {
    hide Execute, RequestOk, FilesAfter, Unanimous, Healthy, Loads, Index, SortBy, TeamFile, ScaffoldActions, WithService, UniqueNames, AllNames,
         AnyService, DatabaseActive, TeamBecomes, Separate, InOrder;
    var p, tenants, after := q.p, TenantsOf(repo), TenantsOf(next);
    RefusalFails(tenants, Conflict);
    RefusalFails(tenants, NotFound);
    var owners := ServiceTeam(p).owners;
    var team := NewTenant(p.team, owners);
    var longer := SortBy(tenants + [team], TenantName);
    var k := NewTeamAt(tenants, team);
    NoDatabases(team, p.name);
    FailsLast([WriteLeaf(TeamLeaf(p.team), TeamFile(p.team, ServiceTeam(p)))]);
    NormalizeOrders(owners);
    assert StartsFrom(tenants, q, team) && Chooses(team, q, None);
    ScaffoldChanges(team, q);
    ScaffoldNames(team, p);
    assert after == longer[k := WithService(team, p)];
    assert forall j :: 0 <= j < |tenants| ==> TenantName(tenants[j]) != p.team;
    forall u ensures u in after <==> u == WithService(team, p) || (u in tenants && u.name != p.team) {
      if u in after {
        var j :| 0 <= j < |after| && after[j] == u;
        assert j != k ==> longer[j] in tenants;
      }
      if u in tenants {
        var j :| 0 <= j < |longer| && longer[j] == u;
        assert j != k && after[j] == u;
      }
      assert after[k] == WithService(team, p);
    }
  }

  // ---------------------------------------------------------------- services

  lemma ReplacedService(t: Tenant, now: Tenant, q: Request, j: nat, x: Service)
    requires DistinctBy(t.services, ServiceName) && j < |t.services| && t.services[j].name == q.p.name == x.name && now.services == t.services[j := x]
    requires q.operation in {ServiceActivate, ServiceRetire} && ServiceBecomes(q, t.services[j]) == Some(x)
    ensures ServicesBecome(t, now, q)
  {
    hide DistinctBy;
    ReplacedAt(t.services, ServiceName, j, x);
    forall y ensures y in now.services <==> exists was <- t.services :: ServiceBecomes(q, was) == Some(y) {
      if y == x {
        assert t.services[j] in t.services;
      } else if y in now.services {
        assert ServiceName(y) != ServiceName(x);
        assert ServiceBecomes(q, y) == Some(y);
      }
      if exists was <- t.services :: ServiceBecomes(q, was) == Some(y) {
        var was :| was in t.services && ServiceBecomes(q, was) == Some(y);
        assert ServiceName(was) == was.name;
      }
    }
  }

  /** After some components are active: they, with their references, and the other entries. */
  ghost predicate Linked(before: seq<Entry>, after: seq<Entry>, s: Service, components: seq<string>) {
    forall e :: e in after <==> (e in before && e.name !in components)
                                || (e.name in components && e == Entry(e.name, AppLeaf(e.name), ComponentRef(s, e.name), Active, ""))
  }

  ghost predicate Orderly(entries: seq<Entry>) {
    forall e <- entries :: e.path == AppLeaf(e.name) && (e.lifecycle.Active? ==> e.request == "")
  }

  lemma LinkedKeepsOrderly(before: seq<Entry>, after: seq<Entry>, s: Service, components: seq<string>)
    requires Orderly(before) && Linked(before, after, s, components)
    ensures Orderly(after)
  {
    hide ComponentRef;
  }

  lemma OneMoreLinked(before: seq<Entry>, middle: seq<Entry>, s: Service, done: seq<string>, c: string)
    requires DistinctBy(middle, EntryName) && Orderly(middle) && Linked(before, middle, s, done)
    requires !ComponentAction("", middle, s, c).Fail?
    ensures Linked(before, WithComponent(middle, s, c), s, done + [c])
  {
    hide ComponentRef, DistinctBy, Index;
    var j, after := Index(middle, EntryName, c), WithComponent(middle, s, c);
    FoundBy(middle, EntryName, c);
    var linked := Entry(c, AppLeaf(c), ComponentRef(s, c), Active, "");
    assert forall x :: x in done + [c] <==> x in done || x == c;
    if j < 0 {
      forall e ensures e in after <==> e in middle || e == linked {
      }
      forall e <- middle ensures e.name != c {
        var k :| 0 <= k < |middle| && middle[k] == e;
        assert EntryName(middle[k]) != c;
      }
    } else {
      assert middle[j] in middle;
      assert after == middle[j := linked];
      ReplacedAt(middle, EntryName, j, linked);
      assert forall e :: EntryName(e) == EntryName(linked) <==> e.name == c;
    }
  }

  lemma {:induction false} ComponentsLink(before: seq<Entry>, team: string, s: Service, components: seq<string>)
    requires DistinctBy(before, EntryName) && Orderly(before) && AllWrites(ComponentActions(team, before, s, components))
    ensures Linked(before, WithComponents(before, s, components), s, components)
    decreases |components|
  {
    hide ComponentFile, ComponentRef, WithComponent, ComponentAction, DistinctBy, Linked, Orderly, Activated;
    if components == [] {
      assert Linked(before, before, s, []) by { NothingLinked(before, s); }
    } else {
      var init, c := components[..|components| - 1], components[|components| - 1];
      var middle, actions := WithComponents(before, s, init), ComponentActions(team, before, s, init);
      assert forall a <- actions :: a in ComponentActions(team, before, s, components);
      assert ComponentAction(team, middle, s, c) in ComponentActions(team, before, s, components);
      ComponentsActivate(before, team, s, init);
      ComponentsLink(before, team, s, init);
      LinkedKeepsOrderly(before, middle, s, init);
      AnyTeam(team, middle, s, c);
      OneMoreLinked(before, middle, s, init, c);
      assert components == init + [c];
    }
  }

  lemma NothingLinked(before: seq<Entry>, s: Service)
    ensures Linked(before, before, s, [])
  {
  }

  lemma AnyTeam(team: string, entries: seq<Entry>, s: Service, c: string)
    ensures ComponentAction(team, entries, s, c).Fail? <==> ComponentAction("", entries, s, c).Fail?
  {
    hide Index, ComponentFile;
  }

  /** The chosen service of a request, among services with different names. */
  lemma ActivateChanges(t: Tenant, q: Request, j: nat, s: Service, now: Tenant)
    requires q.operation.ServiceActivate? && j < |t.services| && t.services[j].name == q.p.name && s == t.services[j].(version := q.p.version)
    requires DistinctBy(t.services, ServiceName) && Orderly(t.applications) && s.components == TemplateComponents(s.name, s.template)
    requires Linked(t.applications, WithComponents(t.applications, s, s.components), s, s.components)
    requires forall e <- t.applications :: e.name in s.components ==> e.lifecycle.Active?
    requires now == t.(applications := SortBy(WithComponents(t.applications, s, s.components), EntryName), services := t.services[j := s.(lifecycle := Active)])
    ensures TeamBecomes(t, now, q, Some(t.services[j]))
  {
    hide SortBy, WithComponents, DistinctBy, Linked, Orderly;
    var chosen := Some(t.services[j]);
    ReplacedService(t, now, q, j, s.(lifecycle := Active));
    assert EntriesBecome(t, now, q, chosen, true) by { ActivateKeepsDatabases(t, now, q, chosen); }
    assert EntriesBecome(t, now, q, chosen, false) by {
      LinkedBecomes(t, now, q, chosen.value, s, WithComponents(t.applications, s, s.components));
    }
  }

  lemma ActivateKeepsDatabases(t: Tenant, now: Tenant, q: Request, s: Option<Service>)
    requires q.operation.ServiceActivate? && now.databases == t.databases
    ensures EntriesBecome(t, now, q, s, true)
  {
    NothingBecomes(t, now, q, s, true);
  }

  lemma LinkedBecomes(t: Tenant, now: Tenant, q: Request, chosen: Service, s: Service, linked: seq<Entry>)
    requires q.operation.ServiceActivate? && s == chosen.(version := s.version) && s.components == TemplateComponents(s.name, s.template)
    requires Linked(t.applications, linked, s, s.components) && now.applications == SortBy(linked, EntryName) && Orderly(t.applications)
    requires forall e <- t.applications :: e.name in s.components ==> e.lifecycle.Active?
    ensures EntriesBecome(t, now, q, Some(chosen), false)
  {
    hide SortBy, Linked, Orderly, EntryAdded, EntryBecomes, TemplateComponents;
    forall e ensures e in now.applications <==> Outcome(t, q, chosen, e) {
      SortedMembers(linked, EntryName, e);
      LinkedOutcome(t, q, chosen, s, linked, e);
      OutcomeLinked(t, q, chosen, s, linked, e);
    }
  }

  ghost predicate Outcome(t: Tenant, q: Request, s: Service, e: Entry) {
    EntryAdded(t, q, Some(s), false, e) || exists was <- t.applications :: EntryBecomes(q, Some(s), false, was) == Some(e)
  }

  lemma LinkedOutcome(t: Tenant, q: Request, chosen: Service, s: Service, linked: seq<Entry>, e: Entry)
    requires q.operation.ServiceActivate? && s == chosen.(version := s.version) && s.components == TemplateComponents(s.name, s.template)
    requires Linked(t.applications, linked, s, s.components) && Orderly(t.applications)
    requires forall e <- t.applications :: e.name in s.components ==> e.lifecycle.Active?
    ensures e in linked ==> Outcome(t, q, chosen, e)
  {
    hide ComponentRef, TemplateComponents;
    if e in linked && e.name in s.components {
      ComponentRefSays(s, e.name);
      if HasEntry(t.applications, e.name) {
        var was :| was in t.applications && was.name == e.name;
        assert EntryBecomes(q, Some(chosen), false, was) == Some(e);
      }
    } else if e in linked {
      assert EntryBecomes(q, Some(chosen), false, e) == Some(e);
    }
  }

  lemma OutcomeLinked(t: Tenant, q: Request, chosen: Service, s: Service, linked: seq<Entry>, e: Entry)
    requires q.operation.ServiceActivate? && s == chosen.(version := s.version) && s.components == TemplateComponents(s.name, s.template)
    requires Linked(t.applications, linked, s, s.components) && Orderly(t.applications)
    requires forall e <- t.applications :: e.name in s.components ==> e.lifecycle.Active?
    ensures Outcome(t, q, chosen, e) ==> e in linked
  {
    hide ComponentRef, TemplateComponents, Linked, Orderly, EntryAdded, EntryBecomes;
    LinkedAt(t.applications, linked, s, s.components, e);
    if e.name in s.components {
      ComponentRefSays(s, e.name);
    }
    if EntryAdded(t, q, Some(chosen), false, e) {
      AddedIs(t, q, chosen, e);
    }
    if exists was <- t.applications :: EntryBecomes(q, Some(chosen), false, was) == Some(e) {
      var was :| was in t.applications && EntryBecomes(q, Some(chosen), false, was) == Some(e);
      BecomesIs(t, q, chosen, was, e);
    }
  }

  lemma LinkedAt(before: seq<Entry>, after: seq<Entry>, s: Service, components: seq<string>, e: Entry)
    requires Linked(before, after, s, components)
    ensures e in after <==> (e in before && e.name !in components)
                            || (e.name in components && e == Entry(e.name, AppLeaf(e.name), ComponentRef(s, e.name), Active, ""))
  {
  }

  lemma AddedIs(t: Tenant, q: Request, s: Service, e: Entry)
    requires q.operation.ServiceActivate? && EntryAdded(t, q, Some(s), false, e)
    ensures e.name in s.components && e == Entry(e.name, AppLeaf(e.name), PartRef(Some(s), e.name), Active, "")
  {
  }

  lemma BecomesIs(t: Tenant, q: Request, s: Service, was: Entry, e: Entry)
    requires q.operation.ServiceActivate? && was in t.applications && EntryBecomes(q, Some(s), false, was) == Some(e) && Orderly(t.applications)
    requires was.name in s.components ==> was.lifecycle.Active?
    ensures if was.name in s.components then e == Entry(was.name, AppLeaf(was.name), PartRef(Some(s), was.name), Active, "") else e == was
  {
  }

  lemma ActivateOutcome(repo: Repository, q: Request, next: Repository, i: nat)
    requires Loads(repo) && i < |TenantsOf(repo)| && TenantsOf(repo)[i].name == Target(q) && Separate(TenantsOf(repo)) && Shape(TenantsOf(repo)[i])
    requires q.operation.ServiceActivate? && Planned(repo, q, next, PlanServiceActivate(TenantsOf(repo), i, q))
    ensures CatalogAfter(TenantsOf(repo), TenantsOf(next), q)
  {
    hide Execute, RequestOk, FilesAfter, Unanimous, Healthy, Loads, Index, SortBy, WithComponents, ComponentActions, Separate, Shape, TeamBecomes, Replaces,
         Activated, DistinctBy, Linked, Orderly;
    var tenants, after := TenantsOf(repo), TenantsOf(next);
    RefusalFails(tenants, Conflict);
    RefusalFails(tenants, NotFound);
    var t, j := tenants[i], Index(tenants[i].services, ServiceName, q.p.name);
    var s := t.services[j].(version := q.p.version);
    var writes := ComponentActions(q.p.team, t.applications, s, s.components);
    SeparateTenant(tenants, i);
    assert forall a <- writes :: a in PlanServiceActivate(tenants, i, q).actions;
    assert t in tenants && t.services[j] in t.services;
    OfferedService(repo, t, t.services[j], q);
    ShapeIsOrderly(t);
    ComponentsActivate(t.applications, q.p.team, s, s.components);
    ComponentsLink(t.applications, q.p.team, s, s.components);
    WereActive(t.applications, q.p.team, s);
    ActivateChanges(t, q, j, s, after[i]);
    TeamInPlace(tenants, i, after[i]);
    assert StartsFrom(tenants, q, t) && Chooses(t, q, Some(t.services[j]));
  }

  lemma ShapeIsOrderly(t: Tenant)
    requires Shape(t)
    ensures Orderly(t.applications)
  {
    hide Shape;
    ApplicationsOfShape(t);
  }

  lemma WereActive(before: seq<Entry>, team: string, s: Service)
    requires Activated(before, WithComponents(before, s, s.components), ComponentActions(team, before, s, s.components), team, s, s.components)
    ensures forall e <- before :: e.name in s.components ==> e.lifecycle.Active?
  {
    hide WithComponents, ComponentActions, ComponentFile;
  }

  lemma RetiredNamesAre(t: Tenant, now: Tenant, q: Request, s: Service)
    requires q.operation.ServiceRetire? && NamedRetired(t.applications, now.applications, s.components, q.id)
    ensures EntriesBecome(t, now, q, Some(s), false)
  {
    forall k | 0 <= k < |t.applications| ensures EntryBecomes(q, Some(s), false, t.applications[k]) == Some(now.applications[k]) {
    }
    assert |now.applications| == |t.applications|;
    Pointwise(t, now, q, Some(s), false);
  }

  lemma OwnedRetires(t: Tenant, now: Tenant, q: Request, s: Service, k: int)
    requires q.operation.ServiceRetire? && DistinctBy(t.databases, EntryName) && k < |t.databases|
    requires k < 0 ==> now.databases == t.databases && forall d <- t.databases :: !(s.ownsDatabase && d.name == s.databaseRef)
    requires k >= 0 ==> now.databases == t.databases[k := Retired(t.databases[k], q.id)] && s.ownsDatabase && t.databases[k].name == s.databaseRef
    ensures EntriesBecome(t, now, q, Some(s), true)
  {
    forall m | 0 <= m < |t.databases| ensures EntryBecomes(q, Some(s), true, t.databases[m]) == Some(now.databases[m]) {
      assert t.databases[m] in t.databases;
      if k >= 0 && m != k {
        assert EntryName(t.databases[m]) != EntryName(t.databases[k]);
      }
    }
    Pointwise(t, now, q, Some(s), true);
  }

  /** A valid team: the position of the database a service owns. */
  lemma OwnedAt(t: Tenant, s: Service)
    requires forall d <- t.databases :: d.name != ""
    ensures var k := OwnedDatabase(t, s);
            && (k < 0 ==> forall d <- t.databases :: !(s.ownsDatabase && d.name == s.databaseRef))
            && (k >= 0 ==> s.ownsDatabase && t.databases[k].name == s.databaseRef)
  {
    hide Index;
    var k := OwnedDatabase(t, s);
    if k >= 0 {
      assert EntryName(t.databases[k]) == t.databases[k].name;
    } else {
      forall d <- t.databases ensures !(s.ownsDatabase && d.name == s.databaseRef) {
        var m :| 0 <= m < |t.databases| && t.databases[m] == d;
        assert EntryName(t.databases[m]) == d.name;
      }
    }
  }

  lemma DatabasesAreNamed(t: Tenant)
    requires Shape(t)
    ensures forall d <- t.databases :: d.name != ""
  {
    hide ApplicationShape, ServiceShape, TeamShape, LifecycleOk;
  }

  lemma RetireChanges(t: Tenant, q: Request, j: nat)
    requires q.operation.ServiceRetire? && j < |t.services| && t.services[j].name == q.p.name && Shape(t)
    requires DistinctBy(t.services, ServiceName) && DistinctBy(t.applications, EntryName) && DistinctBy(t.databases, EntryName)
    ensures TeamBecomes(t, RetireService(t, j, q.id), q, Some(t.services[j])) && RetireService(t, j, q.id).name == t.name
  {
    hide DistinctBy, RetireNamed, OwnedDatabase, Shape, NamedRetired, EntriesBecome, ServicesBecome;
    var s, now := t.services[j], RetireService(t, j, q.id);
    ReplacedService(t, now, q, j, RetiredService(s, q.id));
    NamesRetire(t.applications, s.components, q.id);
    RetiredNamesAre(t, now, q, s);
    DatabasesAreNamed(t);
    OwnedAt(t, s);
    OwnedRetires(t, now, q, s, OwnedDatabase(t, s));
  }

  lemma FinalizeChanges(t: Tenant, q: Request, s: Service)
    requires q.operation.ServiceFinalize? && s.name == q.p.name
    ensures TeamBecomes(t, FinalizeService(t, s), q, Some(s))
  {
    hide Without, EntriesBecome, ServicesBecome;
    var now := FinalizeService(t, s);
    assert forall e :: EntryName(e) !in s.components <==> e.name !in s.components;
    assert forall e :: EntryName(e) !in [s.databaseRef] <==> e.name != s.databaseRef;
    Filtered(t, now, q, Some(s), false);
    Filtered(t, now, q, Some(s), true);
    ServiceLeaves(t, now, q, s);
  }

  lemma ServiceLeaves(t: Tenant, now: Tenant, q: Request, s: Service)
    requires q.operation.ServiceFinalize? && s.name == q.p.name && now.services == Without(t.services, ServiceName, [s.name])
    ensures ServicesBecome(t, now, q)
  {
    hide Without;
    assert forall x :: ServiceName(x) !in [s.name] <==> x.name != s.name;
    forall x ensures x in now.services <==> exists was <- t.services :: ServiceBecomes(q, was) == Some(x) {
      if x in now.services {
        assert ServiceBecomes(q, x) == Some(x);
      }
    }
  }

  lemma LeavingOutcome(repo: Repository, q: Request, next: Repository, i: nat)
    requires Loads(repo) && i < |TenantsOf(repo)| && TenantsOf(repo)[i].name == Target(q) && Separate(TenantsOf(repo)) && Shape(TenantsOf(repo)[i])
    requires q.operation in {ServiceRetire, ServiceFinalize} && Planned(repo, q, next, PlanIn(repo, TenantsOf(repo), i, q))
    ensures CatalogAfter(TenantsOf(repo), TenantsOf(next), q)
  {
    hide Execute, RequestOk, FilesAfter, Unanimous, Healthy, Loads, Index, ApproveNamed, DropNamed, OwnedDatabase, Separate, Shape, TeamBecomes, Replaces, Without,
         DistinctBy, RetireService, FinalizeService;
    var tenants, after := TenantsOf(repo), TenantsOf(next);
    RefusalFails(tenants, Conflict);
    RefusalFails(tenants, NotFound);
    var t, j := tenants[i], Index(tenants[i].services, ServiceName, q.p.name);
    var s := t.services[j];
    SeparateTenant(tenants, i);
    assert t in tenants && s in t.services;
    assert StartsFrom(tenants, q, t) && Chooses(t, q, Some(s));
    if q.operation.ServiceRetire? {
      RetireChanges(t, q, j);
      TeamInPlace(tenants, i, after[i]);
    } else if s.ownsTeam {
      assert forall u :: TenantName(u) !in [t.name] <==> u.name != t.name;
    } else {
      FinalizeChanges(t, q, s);
      assert after[i].name == t.name by { FinalizedName(t, s); }
      TeamInPlace(tenants, i, after[i]);
    }
  }

  lemma FinalizedName(t: Tenant, s: Service)
    ensures FinalizeService(t, s).name == t.name
  {
  }

  // ---------------------------------------------------------------- every request

  /** After a request that goes through without a gap, the catalog lists exactly what it was
      asked to list: the team of the request with exactly these entries and services, and
      every other team as it was. */
  lemma CatalogIsAsAsked(repo: Repository, q: Request, next: Repository)
    requires Healthy(repo) && Step(repo, q, next)
    ensures Loads(next) && CatalogAfter(TenantsOf(repo), TenantsOf(next), q)
  {
    hide Execute, Consistent, RequestOk, FilesAfter, GapFree, Rendered, View, Valid, Unanimous, PlanIn, Planned, CatalogAfter, Step, UniqueNames, AllNames,
         PlanTeamCreate, PlanServiceScaffold, Index, Separate, Derived, Shape;
    StepPlanned(repo, q, next);
    assert Loads(next) by { PlannedLoads(repo, q, next, PlanOf(repo, TenantsOf(repo), q)); }
    if q.operation.TeamCreate? {
      TeamCreateOutcome(repo, q, next);
    } else if q.operation.ServiceScaffold? {
      UniqueTenants(repo);
      ScaffoldOutcome(repo, q, next);
    } else {
      var i := PlanOfTarget(repo, q, next);
      assert TenantsOf(repo)[i] in TenantsOf(repo);
      if q.operation in {TeamUpdate, TeamDelete, TeamFinalize} {
        TeamOutcome(repo, q, next, i);
      } else if q.operation.ServiceActivate? {
        assert PlanIn(repo, TenantsOf(repo), i, q) == PlanServiceActivate(TenantsOf(repo), i, q) by { ActivationIsPlanned(repo, TenantsOf(repo), i, q); }
        ActivateOutcome(repo, q, next, i);
      } else if q.operation in {ServiceRetire, ServiceFinalize} {
        LeavingOutcome(repo, q, next, i);
      } else {
        EntryOutcome(repo, q, next, i);
      }
    }
  }

  lemma ActivationIsPlanned(repo: Repository, tenants: seq<Tenant>, i: nat, q: Request)
    requires i < |tenants| && q.operation.ServiceActivate?
    ensures PlanIn(repo, tenants, i, q) == PlanServiceActivate(tenants, i, q)
  {
    hide PlanServiceActivate;
  }

  lemma PlannedLoads(repo: Repository, q: Request, next: Repository, plan: Plan)
    requires Planned(repo, q, next, plan)
    ensures Loads(next)
  {
    hide Loads, Execute, FilesAfter, Unanimous, RequestOk, Healthy;
  }
}
