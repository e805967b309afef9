/** Every operation leaves unique names, well-formed entries and the sources it needs. */
module OperationSoundness {
  import opened Wrappers
  import opened Catalog
  import opened CatalogValidation
  import opened CatalogFacts
  import opened ChangePlan
  import opened ChangeSets
  import opened OverlayFacts
  import opened RenderSafety
  import opened RenderAccounting
  import opened ServiceAccounting
  import opened CatalogPreserved

  /** A catalog as `ValidHasShape` finds it, and a request that passed validation. */
  ghost predicate Prepared(tenants: seq<Tenant>, i: int, q: Request) {
    (forall t <- tenants :: Shape(t)) && UniqueNames(AllNames(tenants)) && i < |tenants| && RequestOk(q)
  }

  lemma TenantShape(tenants: seq<Tenant>, i: nat, q: Request)
    requires Prepared(tenants, i, q)
    ensures Shape(tenants[i])
  {
    hide Shape, UniqueNames, AllNames, RequestOk;
    assert tenants[i] in tenants;
  }

  lemma EntriesOfShape(t: Tenant, j: nat)
    requires Shape(t)
    ensures j < |t.applications| ==> ApplicationShape(t.databases, t.applications[j])
    ensures j < |t.databases| ==> DatabaseShape(t.databases[j])
    ensures j < |t.services| ==> ServiceShape(t.databases, t.services[j])
  {
    hide ApplicationShape, DatabaseShape, ServiceShape, TeamShape;
    assert j < |t.applications| ==> t.applications[j] in t.applications;
    assert j < |t.databases| ==> t.databases[j] in t.databases;
    assert j < |t.services| ==> t.services[j] in t.services;
  }

  lemma ActiveIsThere(t: Tenant, name: string)
    requires DatabaseActive(t, name)
    ensures HasEntry(t.databases, name)
  {
    hide Index;
    var i := Index(t.databases, EntryName, name);
    assert t.databases[i] in t.databases;
  }

  // ---------------------------------------------------------------- applications

  lemma AppCreateSound(tenants: seq<Tenant>, i: nat, q: Request)
    requires Prepared(tenants, i, q) && q.operation.AppCreate? && !PlanAppCreate(tenants, i, q).actions[0].Fail?
    ensures Sound(tenants, PlanAppCreate(tenants, i, q))
  {
    hide UniqueNames, AllNames, Shape, ValidName, AnyApplication, DatabaseActive, SortBy, Sound, HasLeaf, DesiredStateOk;
    var p := q.p;
    NotNamed(tenants, p.name);
    if p.databaseRef != "" {
      ActiveIsThere(tenants[i], p.databaseRef);
    }
    CreateSound(tenants, i, false, NewEntry(AppLeaf(p.name), p.databaseRef), PlanAppCreate(tenants, i, q).actions);
  }

  lemma AppUpdateSound(tenants: seq<Tenant>, i: nat, q: Request)
    requires Prepared(tenants, i, q) && !PlanAppUpdate(tenants, i, q).actions[0].Fail?
    ensures Sound(tenants, PlanAppUpdate(tenants, i, q))
  {
    hide UniqueNames, AllNames, Shape, ValidName, Index, DatabaseActive, Sound, DesiredStateOk, LifecycleOk;
    var p, t, j := q.p, tenants[i], Index(tenants[i].applications, EntryName, q.p.name);
    TenantShape(tenants, i, q);
    EntriesOfShape(t, j);
    if p.databaseRef != "" {
      ActiveIsThere(t, p.databaseRef);
    }
    ReplaceSound(tenants, i, false, j, t.applications[j].(databaseRef := p.databaseRef), PlanAppUpdate(tenants, i, q).actions);
  }

  lemma AppDeleteSound(tenants: seq<Tenant>, i: nat, q: Request)
    requires Prepared(tenants, i, q) && !PlanAppDelete(tenants, i, q).actions[0].Fail?
    ensures Sound(tenants, PlanAppDelete(tenants, i, q))
  {
    hide UniqueNames, AllNames, Shape, ValidName, Index, Sound, DesiredStateOk, IsUuid, HasEntry;
    var t, j := tenants[i], Index(tenants[i].applications, EntryName, q.p.name);
    TenantShape(tenants, i, q);
    EntriesOfShape(t, j);
    ReplaceSound(tenants, i, false, j, Retired(t.applications[j], q.id), PlanAppDelete(tenants, i, q).actions);
  }

  lemma AppFinalizeSound(tenants: seq<Tenant>, i: nat, q: Request)
    requires Prepared(tenants, i, q) && !PlanAppFinalize(tenants, i, q).actions[0].Fail?
    ensures Sound(tenants, PlanAppFinalize(tenants, i, q))
  {
    hide UniqueNames, AllNames, Shape, Index, Sound, RequestOk, Without, HasEntry;
    RemoveApplicationSound(tenants, i, q.p.name, PlanAppFinalize(tenants, i, q).actions);
  }

  // ---------------------------------------------------------------- databases

  lemma DatabaseCreateSound(tenants: seq<Tenant>, i: nat, q: Request)
    requires Prepared(tenants, i, q) && !PlanDatabaseCreate(tenants, i, q).actions[0].Fail?
    ensures Sound(tenants, PlanDatabaseCreate(tenants, i, q))
  {
    hide UniqueNames, AllNames, Shape, ValidName, AnyDatabase, SortBy, Sound, HasLeaf, DesiredStateOk;
    NotNamed(tenants, q.p.name);
    CreateSound(tenants, i, true, NewEntry(DatabaseLeaf(q.p.name), ""), PlanDatabaseCreate(tenants, i, q).actions);
  }

  lemma DatabaseUpdateSound(repo: Repository, tenants: seq<Tenant>, i: nat, q: Request)
    requires Prepared(tenants, i, q) && !PlanDatabaseUpdate(repo, tenants, i, q).actions[0].Fail?
    ensures Sound(tenants, PlanDatabaseUpdate(repo, tenants, i, q))
  {
    hide UniqueNames, AllNames, Shape, Index, Sound, RequestOk, UpdatedDatabase;
    SameServices(tenants, i, tenants[i]);
    assert tenants[i := tenants[i]] == tenants;
    TenantShape(tenants, i, q);
    InPlaceIsSound(tenants, i, tenants[i], PlanDatabaseUpdate(repo, tenants, i, q).actions);
  }

  lemma DatabaseDeleteSound(tenants: seq<Tenant>, i: nat, q: Request)
    requires Prepared(tenants, i, q) && !PlanDatabaseDelete(tenants, i, q).actions[0].Fail?
    ensures Sound(tenants, PlanDatabaseDelete(tenants, i, q))
  {
    hide UniqueNames, AllNames, Shape, ValidName, Index, Sound, DesiredStateOk, IsUuid, HasEntry, DatabaseInUse;
    var t, j := tenants[i], Index(tenants[i].databases, EntryName, q.p.name);
    TenantShape(tenants, i, q);
    EntriesOfShape(t, j);
    ReplaceSound(tenants, i, true, j, Retired(t.databases[j], q.id), PlanDatabaseDelete(tenants, i, q).actions);
  }

  lemma DatabaseFinalizeSound(tenants: seq<Tenant>, i: nat, q: Request)
    requires Prepared(tenants, i, q) && !PlanDatabaseFinalize(tenants, i, q).actions[0].Fail? && Unreferenced(tenants[i], q.p.name)
    ensures Sound(tenants, PlanDatabaseFinalize(tenants, i, q))
  {
    hide UniqueNames, AllNames, Shape, Index, Sound, RequestOk, Without, HasEntry, Unreferenced;
    RemoveDatabaseSound(tenants, i, q.p.name, PlanDatabaseFinalize(tenants, i, q).actions);
  }

  // ---------------------------------------------------------------- teams

  /** Sorting keeps a valid list of owners valid. */
  lemma OwnersSorted(owners: seq<string>)
    requires OwnersOk(owners)
    ensures OwnersOk(Normalize(owners))
  {
    hide SortBy, OwnerOk;
    var sorted := Normalize(owners);
    forall o <- sorted ensures OwnerOk(o) {
      SortedMembers(owners, StringKey, o);
    }
    forall i, j | 0 <= i < j < |sorted| ensures sorted[i] != sorted[j] {
      if sorted[i] == sorted[j] {
        TwiceIn(sorted, i, j);
        OnceIn(owners, sorted[i]);
      }
    }
  }

  lemma TeamCreateSound(tenants: seq<Tenant>, q: Request)
    requires Prepared(tenants, -1, q) && q.operation.TeamCreate? && !PlanTeamCreate(tenants, q).actions[0].Fail?
    ensures Sound(tenants, PlanTeamCreate(tenants, q))
  {
    hide UniqueNames, AllNames, Shape, Index, SortBy, ValidName, OwnersOk, Join, TenantNames;
    var team := NewTenant(q.p.name, q.p.owners);
    NewTeamShape(q.p.name, q.p.owners);
    FreshTeamIsUnique(tenants, team);
    AllNamesAppend(tenants, [team]);
    AllNamesOne(team);
    var actions := PlanTeamCreate(tenants, q).actions;
    forall t <- tenants + [team], s <- t.services ensures SourceKept(tenants, actions, s) {
      assert t in tenants;
    }
  }

  lemma NewTeamShape(name: string, owners: seq<string>)
    requires ValidName(name, 58) && OwnersOk(owners)
    ensures Shape(NewTenant(name, owners))
  {
    hide ValidName, OwnersOk, SortBy;
    OwnersSorted(owners);
  }

  lemma TeamUpdateSound(tenants: seq<Tenant>, i: nat, q: Request)
    requires Prepared(tenants, i, q) && q.operation.TeamUpdate?
    ensures Sound(tenants, PlanTeamUpdate(tenants, i, q))
  {
    hide UniqueNames, AllNames, Shape, SortBy, ValidName, OwnersOk, Sound;
    var t := tenants[i].(owners := Normalize(q.p.owners));
    TenantShape(tenants, i, q);
    OwnersSorted(q.p.owners);
    OwnersShape(tenants[i], Normalize(q.p.owners));
    NamesShrink(tenants, i, t);
    SameServices(tenants, i, t);
    InPlaceIsSound(tenants, i, t, PlanTeamUpdate(tenants, i, q).actions);
  }

  lemma OwnersShape(t: Tenant, owners: seq<string>)
    requires Shape(t) && OwnersOk(owners)
    ensures Shape(t.(owners := owners))
  {
    hide ValidName, OwnersOk, LifecycleOk, DatabaseShape, ApplicationShape, ServiceShape;
  }

  lemma TeamDeleteSound(tenants: seq<Tenant>, i: nat, q: Request)
    requires Prepared(tenants, i, q)
    ensures Sound(tenants, PlanTeamDelete(tenants, i, q))
  {
    hide UniqueNames, AllNames, Shape, ValidName, DesiredStateOk, IsUuid, Sound, NamesOf;
    var t := RetireTenant(tenants[i], q.id);
    TenantShape(tenants, i, q);
    RetiredShape(tenants[i], q.id);
    SameNames(tenants[i].applications, t.applications, EntryName);
    SameNames(tenants[i].databases, t.databases, EntryName);
    SameNames(tenants[i].services, t.services, ServiceName);
    NamesShrink(tenants, i, t);
    forall s <- t.services ensures exists s0 <- tenants[i].services :: s0.path == s.path {
      var k :| 0 <= k < |t.services| && t.services[k] == s;
      assert tenants[i].services[k] in tenants[i].services;
    }
    var actions := PlanTeamDelete(tenants, i, q).actions;
    assert forall a <- actions :: ActionSource(a).None?;
    InPlaceIsSound(tenants, i, t, actions);
  }

  lemma RetiredShape(t: Tenant, id: string)
    requires Shape(t) && IsUuid(id)
    ensures Shape(RetireTenant(t, id))
  {
    hide ValidName, OwnersOk, IsUuid, HasEntry, TemplateComponents;
    var r := RetireTenant(t, id);
    forall d <- r.databases ensures DatabaseShape(d) {
      var k :| 0 <= k < |r.databases| && r.databases[k] == d;
      assert t.databases[k] in t.databases;
    }
    forall name | HasEntry(t.databases, name) ensures HasEntry(r.databases, name) {
      NameStays(t.databases, r.databases, name);
    }
    forall a <- r.applications ensures ApplicationShape(r.databases, a) {
      var k :| 0 <= k < |r.applications| && r.applications[k] == a;
      assert t.applications[k] in t.applications;
    }
    forall s <- r.services ensures ServiceShape(r.databases, s) {
      var k :| 0 <= k < |r.services| && r.services[k] == s;
      assert t.services[k] in t.services;
    }
  }

  lemma NameStays(a: seq<Entry>, b: seq<Entry>, name: string)
    requires |a| == |b| && (forall i :: 0 <= i < |a| ==> a[i].name == b[i].name) && HasEntry(a, name)
    ensures HasEntry(b, name)
  {
    var i :| 0 <= i < |a| && a[i].name == name;
    assert b[i] in b;
  }

  /** Tenants that were there before, with sources nobody drops. */
  lemma RemovalIsSound(tenants: seq<Tenant>, i: nat, actions: seq<Action>)
    requires i < |tenants| && (forall t <- tenants :: Shape(t)) && UniqueNames(AllNames(tenants))
    requires forall a <- actions :: ActionSource(a).Some? ==> exists s <- tenants[i].services :: s.path == ActionSource(a).value
    ensures Sound(tenants, Plan(Without(tenants, TenantName, [tenants[i].name]), actions))
  {
    hide UniqueNames, AllNames, Without, Shape;
    var after := Without(tenants, TenantName, [tenants[i].name]);
    FewerTenantNames(tenants, [tenants[i].name]);
    SmallerIsUnique(AllNames(after), AllNames(tenants));
    UniqueIsSeparate(tenants);
    forall t <- after, s <- t.services ensures SourceKept(tenants, actions, s) {
      OthersSource(tenants, i, actions, t, s);
    }
  }

  lemma PathIsName(t: Tenant, s: Service)
    requires Shape(t) && s in t.services
    ensures s.path == s.name && TenantHasService(t, s.path)
  {
    hide ApplicationShape, DatabaseShape, TeamShape, ValidName, ServiceLifecycleOk, TemplateComponents, HasEntry;
  }

  lemma OthersSource(tenants: seq<Tenant>, i: nat, actions: seq<Action>, t: Tenant, s: Service)
    requires i < |tenants| && (forall u <- tenants :: Shape(u)) && Separate(tenants) && t in tenants && t.name != tenants[i].name && s in t.services
    requires forall a <- actions :: ActionSource(a).Some? ==> exists x <- tenants[i].services :: x.path == ActionSource(a).value
    ensures SourceKept(tenants, actions, s)
  {
    hide Shape, DistinctBy, TenantHas;
    var k :| 0 <= k < |tenants| && tenants[k] == t;
    PathIsName(t, s);
    assert HasSource(tenants, s.path);
    forall x <- tenants[i].services ensures x.path == s.path ==> i == k {
      if x.path == s.path {
        SourceHasOneOwner(tenants, i, k, x, s);
      }
    }
    forall a <- actions ensures ActionSource(a) != Some(s.path) {
    }
  }

  lemma SourceHasOneOwner(tenants: seq<Tenant>, i: nat, k: nat, x: Service, s: Service)
    requires i < |tenants| && k < |tenants| && (forall u <- tenants :: Shape(u)) && Separate(tenants)
    requires x in tenants[i].services && s in tenants[k].services && x.path == s.path
    ensures i == k
  {
    hide Shape, DistinctBy, TenantHas;
    assert tenants[i] in tenants && tenants[k] in tenants;
    PathIsName(tenants[i], x);
    PathIsName(tenants[k], s);
  }

  lemma TeamFinalizeSound(tenants: seq<Tenant>, i: nat, q: Request)
    requires Prepared(tenants, i, q) && tenants[i].name == q.p.name && !PlanTeamFinalize(tenants, i, q).actions[0].Fail?
    ensures Sound(tenants, PlanTeamFinalize(tenants, i, q))
  {
    hide UniqueNames, AllNames, Without, Shape, RequestOk, Sound;
    var t, actions := tenants[i], PlanTeamFinalize(tenants, i, q).actions;
    forall a <- actions | ActionSource(a).Some? ensures exists s <- t.services :: s.path == ActionSource(a).value {
      DropsOwnSources(t, q, a);
    }
    RemovalIsSound(tenants, i, actions);
  }

  lemma DropsOwnSources(t: Tenant, q: Request, a: Action)
    requires a in [DropLeaf(TeamLeaf(q.p.name))] + Drops(t.applications) + Drops(t.databases) + SourceDrops(t.services) && ActionSource(a).Some?
    ensures exists s <- t.services :: s.path == ActionSource(a).value
  {
    if a in SourceDrops(t.services) {
      var k :| 0 <= k < |t.services| && SourceDrops(t.services)[k] == a;
      assert t.services[k] in t.services;
    }
  }

  // ---------------------------------------------------------------- scaffold

  predicate ServiceNamed(t: Tenant, name: string) { exists s <- t.services :: s.name == name }

  lemma ApiNameIsValid(name: string)
    requires ValidName(name, 48)
    ensures ValidName(name, 63) && ValidName(name + "-api", 63)
  {
    var longer := name + "-api";
    assert longer[|longer| - 1] == 'i' && longer[0] == name[0];
    forall i | 0 <= i < |longer| ensures IsAlnum(longer[i]) || longer[i] == '-' {
      if i < |name| {
        assert longer[i] == name[i];
      }
    }
  }

  lemma ScaffoldedShape(t: Tenant, p: Parameters)
    requires Shape(t) && ValidName(p.name, 48) && !p.template.NoTemplate? && p.version.Version?
    ensures Shape(WithService(t, p))
  {
    hide TeamShape, ValidName, SortBy, HasEntry, ApplicationShape, DatabaseShape, LifecycleOk, OwnersOk;
    var after := WithService(t, p);
    ApiNameIsValid(p.name);
    assert TeamShape(after) by { SameTeamShape(t, after); }
    ScaffoldedDatabases(t, p);
    forall s <- after.services ensures ServiceShape(after.databases, s) {
      SortedMembers(t.services + [NewService(p)], ServiceName, s);
    }
    forall a <- t.applications ensures ApplicationShape(after.databases, a) {
      MoreDatabases(t.databases, after.databases, a);
    }
  }

  lemma SameTeamShape(a: Tenant, b: Tenant)
    requires TeamShape(a) && a.name == b.name && a.owners == b.owners && a.lifecycle == b.lifecycle && a.request == b.request && a.path == b.path
    ensures TeamShape(b)
  {
    hide ValidName, OwnersOk, LifecycleOk;
  }

  lemma MoreDatabases(before: seq<Entry>, after: seq<Entry>, a: Entry)
    requires ApplicationShape(before, a) && forall name :: HasEntry(before, name) ==> HasEntry(after, name)
    ensures ApplicationShape(after, a)
  {
    hide HasEntry, ValidName, LifecycleOk;
  }

  lemma ScaffoldedDatabases(t: Tenant, p: Parameters)
    requires (forall d <- t.databases :: DatabaseShape(d)) && ValidName(p.name, 63)
    ensures var after := WithService(t, p).databases;
            && (forall d <- after :: DatabaseShape(d)) && (forall name :: HasEntry(t.databases, name) ==> HasEntry(after, name))
            && (p.withDatabase ==> HasEntry(after, p.name))
  {
    hide ValidName, SortBy;
    if p.withDatabase {
      var e := NewEntry(DatabaseLeaf(p.name), "");
      StillThere(t.databases, e);
      AddedEntry(t.databases, e);
      forall name | HasEntry(t.databases, name) ensures HasEntry(AddEntry(t.databases, e), name) {
        var d :| d in t.databases && d.name == name;
      }
    }
  }

  /** The names a scaffold adds. */
  function ScaffoldNames(p: Parameters): Names { Names(multiset{}, if p.withDatabase then multiset{p.name} else multiset{}, multiset{}, multiset{p.name}) }

  lemma ScaffoldedNames(t: Tenant, p: Parameters)
    ensures TenantNames(WithService(t, p)) == Join(TenantNames(t), ScaffoldNames(p))
  {
    hide SortBy, NamesOf, TemplateComponents;
    MoreNames(t.services, NewService(p), ServiceName);
    if p.withDatabase {
      MoreNames(t.databases, NewEntry(DatabaseLeaf(p.name), ""), EntryName);
    }
  }

  lemma {:induction false} ServicesInUse(tenants: seq<Tenant>, name: string)
    ensures AnyService(tenants, name) <==> name in AllNames(tenants).services
  {
    if tenants != [] {
      ServicesInUse(tenants[1..], name);
      UsedBySome(tenants[0].services, ServiceName, name);
      assert ServiceNamed(tenants[0], name) <==> name in TenantNames(tenants[0]).services;
      assert AnyService(tenants, name) <==> ServiceNamed(tenants[0], name) || AnyService(tenants[1..], name) by {
        assert forall t :: t in tenants <==> t == tenants[0] || t in tenants[1..];
      }
    }
  }

  lemma ScaffoldNamesFresh(tenants: seq<Tenant>, p: Parameters)
    requires UniqueNames(AllNames(tenants)) && !AnyService(tenants, p.name)
    ensures p.withDatabase && AnyDatabase(tenants, p.name) ==> !UniqueNames(Join(AllNames(tenants), ScaffoldNames(p)))
    ensures !(p.withDatabase && AnyDatabase(tenants, p.name)) ==> UniqueNames(Join(AllNames(tenants), ScaffoldNames(p)))
  {
    hide AllNames, AnyService, AnyDatabase, HasLeaf, Distinct, Index;
    ServicesInUse(tenants, p.name);
    NotNamed(tenants, p.name);
    NamesInUse(tenants, DatabaseLeaf(p.name));
    var n := AllNames(tenants);
    assert n.teams + multiset{} == n.teams && n.databases + multiset{} == n.databases && n.applications + multiset{} == n.applications;
    OneMoreName(n.services, p.name);
    if p.withDatabase {
      if AnyDatabase(tenants, p.name) {
        TwiceIsNotDistinct(n.databases, p.name);
      } else {
        OneMoreName(n.databases, p.name);
      }
    }
  }

  lemma TwiceIsNotDistinct(names: multiset<string>, name: string)
    requires name in names
    ensures !Distinct(names + multiset{name})
  {
    assert (names + multiset{name})[name] >= 2;
  }

  /** A scaffold into some catalog leaves unique names exactly when its database name is unused. */
  lemma ScaffoldUnique(base: seq<Tenant>, k: nat, p: Parameters)
    requires k < |base| && UniqueNames(AllNames(base)) && !AnyService(base, p.name)
    ensures UniqueNames(AllNames(base[k := WithService(base[k], p)])) <==> !(p.withDatabase && AnyDatabase(base, p.name))
  {
    hide UniqueNames, AllNames, AnyService, AnyDatabase, WithService, TenantNames;
    ScaffoldedNames(base[k], p);
    ScaffoldNamesFresh(base, p);
    var t := WithService(base[k], p);
    SameContains(TenantNames(t));
    NamesGrow2(base, k, t, ScaffoldNames(p));
  }

  lemma NamesGrow2(tenants: seq<Tenant>, i: nat, t: Tenant, more: Names)
    requires i < |tenants| && TenantNames(t) == Join(TenantNames(tenants[i]), more)
    ensures UniqueNames(AllNames(tenants[i := t])) <==> UniqueNames(Join(AllNames(tenants), more))
  {
    hide UniqueNames, AllNames, TenantNames, Join;
    var others := Exchange(tenants, i, t);
    JoinLaws(others, TenantNames(tenants[i]), more);
  }

  /** The services of a tenant that was there keep their sources. */
  lemma ScaffoldSources(tenants: seq<Tenant>, base: seq<Tenant>, k: nat, p: Parameters, actions: seq<Action>)
    requires k < |base| && (forall t <- base :: Shape(t)) && !AnyService(base, p.name) && WriteSource(NewService(p)) in actions
    requires forall a <- actions :: ActionSource(a).Some? ==> a == WriteSource(NewService(p))
    requires forall t <- base :: t in tenants || t.services == []
    ensures Sources(tenants, Plan(base[k := WithService(base[k], p)], actions))
  {
    hide Shape, AnyService, WithService;
    var after := base[k := WithService(base[k], p)];
    forall u <- after, s <- u.services ensures SourceKept(tenants, actions, s) {
      var j :| 0 <= j < |after| && after[j] == u;
      assert base[j] in base;
      if s in base[j].services {
        PathIsName(base[j], s);
        OtherServices(base, p, base[j], s);
      } else {
        ScaffoldedServices(base[k], p, s);
      }
    }
  }

  lemma OtherServices(base: seq<Tenant>, p: Parameters, t: Tenant, s: Service)
    requires !AnyService(base, p.name) && t in base && s in t.services
    ensures s.name != p.name
  {
  }

  lemma ScaffoldedServices(t: Tenant, p: Parameters, s: Service)
    requires s in WithService(t, p).services
    ensures s in t.services || s == NewService(p)
  {
    hide SortBy, TemplateComponents;
    SortedMembers(t.services + [NewService(p)], ServiceName, s);
  }

  lemma ScaffoldInSound(tenants: seq<Tenant>, base: seq<Tenant>, k: nat, p: Parameters, first: seq<Action>)
    requires k < |base| && (forall t <- base :: Shape(t)) && UniqueNames(AllNames(base)) && !AnyService(base, p.name)
    requires !(p.withDatabase && AnyDatabase(base, p.name)) && ValidName(p.name, 48) && !p.template.NoTemplate? && p.version.Version?
    requires (forall t <- base :: t in tenants || t.services == []) && forall a <- first :: ActionSource(a).None?
    ensures Sound(tenants, Plan(base[k := WithService(base[k], p)], first + ScaffoldActions(p)))
  {
    hide Shape, UniqueNames, AllNames, AnyService, AnyDatabase, WithService, Sources, ScaffoldActions, ValidName, NewService;
    var after := base[k := WithService(base[k], p)];
    assert base[k] in base;
    ScaffoldUnique(base, k, p);
    ScaffoldedShape(base[k], p);
    ScaffoldActionsAre(p);
    assert WriteSource(NewService(p)) in ScaffoldActions(p);
    ScaffoldSources(tenants, base, k, p, first + ScaffoldActions(p));
    forall t <- after ensures Shape(t) {
      var j :| 0 <= j < |after| && after[j] == t;
      assert base[j] in base;
    }
  }
}
