/** The service operations leave a valid catalog exactly under these conditions. */
module ServiceSoundness {
  import opened Catalog
  import opened CatalogValidation
  import opened CatalogFacts
  import opened ChangePlan
  import opened ChangeSets
  import opened OverlayFacts
  import opened RenderSafety
  import opened RenderAccounting
  import opened ServiceAccounting
  import opened CatalogPreserved
  import opened OperationSoundness

  // ---------------------------------------------------------------- scaffold

  lemma ServiceTeamShape(p: Parameters)
    requires ValidName(p.team, 58)
    ensures Shape(NewTenant(p.team, ServiceTeam(p).owners))
  {
    hide SortBy;
    var owner := p.team + "-owners";
    assert owner[0] == p.team[0];
    forall i | 0 <= i < |owner| ensures owner[i] !in [' ', '\t', '\r', '\n'] {
      if i < |p.team| {
        assert owner[i] == p.team[i];
      }
    }
    assert OwnerOk(owner);
    NewTeamShape(p.team, [owner]);
  }

  lemma ServiceScaffoldSound(tenants: seq<Tenant>, q: Request)
    requires Prepared(tenants, -1, q) && q.operation.ServiceScaffold? && AllWrites(PlanServiceScaffold(tenants, q).actions)
    ensures Sound(tenants, PlanServiceScaffold(tenants, q)) || (q.p.withDatabase && AnyDatabase(tenants, q.p.name))
    ensures q.p.withDatabase && AnyDatabase(tenants, q.p.name) ==> !UniqueNames(AllNames(PlanServiceScaffold(tenants, q).tenants))
  {
    hide UniqueNames, AllNames, Shape, Index, SortBy, AnyService, AnyDatabase, Sound, WithService, ScaffoldActions, DatabaseActive, ValidName;
    var p := q.p;
    var i := Index(tenants, TenantName, p.team);
    var plan := PlanServiceScaffold(tenants, q);
    if i >= 0 {
      assert [] + ScaffoldActions(p) == ScaffoldActions(p);
      assert plan == Plan(tenants[i := WithService(tenants[i], p)], ScaffoldActions(p)) by { FailsLast([]); RefusalFails(tenants, Conflict); }
      assert !AnyService(tenants, p.name) by { RefusalFails(tenants, Conflict); }
      ScaffoldUnique(tenants, i, p);
      if !(p.withDatabase && AnyDatabase(tenants, p.name)) {
        ScaffoldInSound(tenants, tenants, i, p, []);
      }
    } else {
      NewTeamScaffoldSound(tenants, q);
    }
  }

  lemma RefusalFails(tenants: seq<Tenant>, code: ExitCode)
    ensures !AllWrites(Refuse(tenants, code).actions)
  {
    assert [Fail(code)][0].Fail?;
  }

  lemma FailsLast(before: seq<Action>)
    ensures !AllWrites(before + [Fail(Conflict)])
  {
    assert (before + [Fail(Conflict)])[|before|].Fail?;
  }

  lemma NewTeamScaffoldSound(tenants: seq<Tenant>, q: Request)
    requires Prepared(tenants, -1, q) && q.operation.ServiceScaffold? && AllWrites(PlanServiceScaffold(tenants, q).actions)
    requires Index(tenants, TenantName, q.p.team) < 0
    ensures Sound(tenants, PlanServiceScaffold(tenants, q)) || (q.p.withDatabase && AnyDatabase(tenants, q.p.name))
    ensures q.p.withDatabase && AnyDatabase(tenants, q.p.name) ==> !UniqueNames(AllNames(PlanServiceScaffold(tenants, q).tenants))
  {
    hide UniqueNames, AllNames, Shape, Index, SortBy, AnyService, AnyDatabase, Sound, WithService, ScaffoldActions, DatabaseActive, ValidName, TeamFile;
    var p := q.p;
    RefusalFails(tenants, Conflict);
    RefusalFails(tenants, NotFound);
    var team := NewTenant(p.team, ServiceTeam(p).owners);
    var longer := SortBy(tenants + [team], TenantName);
    var k := NewTeamAt(tenants, team);
    var first := WriteLeaf(TeamLeaf(p.team), TeamFile(p.team, ServiceTeam(p)));
    NoDatabases(team, p.name);
    assert PlanServiceScaffold(tenants, q) == Plan(longer[k := WithService(longer[k], p)], [first] + ScaffoldActions(p));
    ServiceTeamShape(p);
    LongerShapes(tenants, longer, k, team);
    LongerInUse(tenants, longer, k, team, p.name);
    ScaffoldUnique(longer, k, p);
    if !(p.withDatabase && AnyDatabase(tenants, p.name)) {
      ScaffoldInSound(tenants, longer, k, p, [first]);
    }
  }

  lemma LongerShapes(tenants: seq<Tenant>, longer: seq<Tenant>, k: nat, team: Tenant)
    requires (forall t <- tenants :: Shape(t)) && Shape(team) && k < |longer| && longer[k] == team && team.services == []
    requires forall j :: 0 <= j < |longer| && j != k ==> longer[j] in tenants
    ensures forall t <- longer :: Shape(t) && (t in tenants || t.services == [])
  {
    hide Shape;
  }

  lemma LongerInUse(tenants: seq<Tenant>, longer: seq<Tenant>, k: nat, team: Tenant, name: string)
    requires k < |longer| && longer[k] == team && team.databases == [] && team.services == []
    requires (forall j :: 0 <= j < |longer| && j != k ==> longer[j] in tenants) && forall t <- tenants :: t in longer
    ensures (AnyDatabase(longer, name) <==> AnyDatabase(tenants, name)) && (AnyService(longer, name) <==> AnyService(tenants, name))
  {
    if AnyDatabase(longer, name) {
      var t :| t in longer && HasEntry(t.databases, name);
      assert t in tenants;
    }
    if AnyService(longer, name) {
      var t :| t in longer && exists s <- t.services :: s.name == name;
      assert t in tenants;
    }
  }

  // ---------------------------------------------------------------- activate

  lemma {:induction false} DistinctNames<T>(items: seq<T>, key: T -> string)
    requires DistinctBy(items, key)
    ensures Distinct(NamesOf(items, key))
  {
    if items != [] {
      var rest := items[1..];
      forall i, j | 0 <= i < j < |rest| ensures key(rest[i]) != key(rest[j]) {
        assert rest[i] == items[i + 1] && rest[j] == items[j + 1];
      }
      DistinctNames(rest, key);
      UsedBySome(rest, key, key(items[0]));
      forall i | 0 <= i < |rest| ensures key(rest[i]) != key(items[0]) {
        assert rest[i] == items[i + 1];
      }
      OneMoreName(NamesOf(rest, key), key(items[0]));
      assert NamesOf(items, key) == NamesOf(rest, key) + multiset{key(items[0])};
    }
  }

  lemma DisjointIsDistinct(a: multiset<string>, b: multiset<string>)
    requires Distinct(a) && Distinct(b) && forall x <- b :: x !in a
    ensures Distinct(a + b)
  {
  }

  /** The names of the other tenants. */
  lemma OthersUse(tenants: seq<Tenant>, i: nat, t: Tenant) returns (others: Names)
    requires i < |tenants|
    ensures AllNames(tenants) == Join(others, TenantNames(tenants[i])) && AllNames(tenants[i := t]) == Join(others, TenantNames(t))
    ensures forall x :: x in others.applications <==> exists k :: 0 <= k < |tenants| && k != i && HasEntry(tenants[k].applications, x)
  {
    hide TenantNames, AllNames, HasLeaf, HasEntry;
    var a, b := tenants[..i], tenants[i + 1..];
    others := Join(AllNames(a), AllNames(b));
    assert tenants == a + ([tenants[i]] + b) && tenants[i := t] == a + ([t] + b);
    AroundOne(a, tenants[i], b);
    AroundOne(a, t, b);
    forall x ensures x in others.applications <==> exists k :: 0 <= k < |tenants| && k != i && HasEntry(tenants[k].applications, x) {
      NamesInUse(a, AppLeaf(x));
      NamesInUse(b, AppLeaf(x));
      SomewhereElse(tenants, i, x);
    }
  }

  lemma SomewhereElse(tenants: seq<Tenant>, i: nat, x: string)
    requires i < |tenants|
    ensures HasLeaf(tenants[..i], AppLeaf(x)) || HasLeaf(tenants[i + 1..], AppLeaf(x)) <==>
            exists k :: 0 <= k < |tenants| && k != i && HasEntry(tenants[k].applications, x)
  {
    hide HasEntry;
    var a, b := tenants[..i], tenants[i + 1..];
    if HasLeaf(a, AppLeaf(x)) {
      var k :| 0 <= k < |a| && HasEntry(a[k].applications, x);
      assert tenants[k] == a[k];
    }
    if HasLeaf(b, AppLeaf(x)) {
      var k :| 0 <= k < |b| && HasEntry(b[k].applications, x);
      assert tenants[k + i + 1] == b[k];
    }
    if exists k :: 0 <= k < |tenants| && k != i && HasEntry(tenants[k].applications, x) {
      var k :| 0 <= k < |tenants| && k != i && HasEntry(tenants[k].applications, x);
      if k < i {
        assert a[k] == tenants[k] && a[k] in a && TenantHas(a[k], AppLeaf(x));
      } else {
        assert b[k - i - 1] == tenants[k] && b[k - i - 1] in b && TenantHas(b[k - i - 1], AppLeaf(x));
      }
    }
  }

  /** Activation keeps names unique exactly when no other tenant has an application named like a component. */
  lemma ActivationUnique(tenants: seq<Tenant>, i: nat, after: seq<Entry>, services: seq<Service>, components: seq<string>)
    requires i < |tenants| && UniqueNames(AllNames(tenants)) && DistinctBy(after, EntryName)
    requires NamesOf(services, ServiceName) == NamesOf(tenants[i].services, ServiceName)
    requires forall e <- after :: e in tenants[i].applications || e.name in components
    requires forall c <- components :: HasEntry(after, c)
    ensures UniqueNames(AllNames(tenants[i := tenants[i].(applications := SortBy(after, EntryName), services := services)]))
            <==> ComponentsFresh(tenants, i, components)
  {
    ActivationUniqueIf(tenants, i, after, services, components);
    ActivationUniqueOnlyIf(tenants, i, after, services, components);
  }

  lemma ActivationUniqueIf(tenants: seq<Tenant>, i: nat, after: seq<Entry>, services: seq<Service>, components: seq<string>)
    requires i < |tenants| && UniqueNames(AllNames(tenants)) && DistinctBy(after, EntryName)
    requires NamesOf(services, ServiceName) == NamesOf(tenants[i].services, ServiceName)
    requires forall e <- after :: (e in tenants[i].applications || e.name in components)
    ensures ComponentsFresh(tenants, i, components) ==>
              UniqueNames(AllNames(tenants[i := tenants[i].(applications := SortBy(after, EntryName), services := services)]))
  {
    hide AllNames, SortBy, NamesOf, Distinct, DistinctBy, HasEntry;
    var t := tenants[i].(applications := SortBy(after, EntryName), services := services);
    var others := OthersUse(tenants, i, t);
    SortedNames(after, EntryName);
    DistinctNames(after, EntryName);
    DistinctPart(others.applications, TenantNames(tenants[i]).applications);
    if ComponentsFresh(tenants, i, components) {
      forall x <- NamesOf(after, EntryName) ensures x !in others.applications {
        UsedBySome(after, EntryName, x);
        var k :| 0 <= k < |after| && EntryName(after[k]) == x;
        if after[k] in tenants[i].applications {
          NotElsewhere(others.applications, tenants[i].applications, after[k]);
        }
      }
      DisjointIsDistinct(others.applications, NamesOf(after, EntryName));
    }
  }

  lemma NotElsewhere(others: multiset<string>, entries: seq<Entry>, e: Entry)
    requires Distinct(others + NamesOf(entries, EntryName)) && e in entries
    ensures e.name !in others
  {
    hide NamesOf;
    var k :| 0 <= k < |entries| && entries[k] == e;
    assert EntryName(entries[k]) == e.name;
    UsedBySome(entries, EntryName, e.name);
    NoSharedName(others, NamesOf(entries, EntryName), e.name);
  }

  lemma ActivationUniqueOnlyIf(tenants: seq<Tenant>, i: nat, after: seq<Entry>, services: seq<Service>, components: seq<string>)
    requires i < |tenants| && forall c <- components :: HasEntry(after, c)
    ensures UniqueNames(AllNames(tenants[i := tenants[i].(applications := SortBy(after, EntryName), services := services)])) ==>
              ComponentsFresh(tenants, i, components)
  {
    hide AllNames, SortBy, UniqueNames, Separate, HasEntry;
    var t := tenants[i].(applications := SortBy(after, EntryName), services := services);
    var changed := tenants[i := t];
    if UniqueNames(AllNames(changed)) {
      UniqueIsSeparate(changed);
      forall k, c | 0 <= k < |tenants| && k != i && c in components ensures !HasEntry(tenants[k].applications, c) {
        SortedHas(after, c);
        OwnLeaf(changed, i, AppLeaf(c));
        assert changed[k] == tenants[k];
        assert !TenantHas(changed[k], AppLeaf(c));
      }
    }
  }

  lemma SortedHas(entries: seq<Entry>, name: string)
    ensures HasEntry(entries, name) ==> HasEntry(SortBy(entries, EntryName), name)
  {
    hide SortBy;
    if HasEntry(entries, name) {
      var e :| e in entries && e.name == name;
      SortedMembers(entries, EntryName, e);
    }
  }

  lemma ActivatedShape(t: Tenant, s: Service, after: seq<Entry>, services: seq<Service>)
    requires Shape(t) && ServiceShape(t.databases, s)
    requires forall e <- after :: e in t.applications || (e.name in s.components && ComponentEntry(t, s, e))
    requires forall x <- services :: ServiceShape(t.databases, x)
    ensures Shape(t.(applications := SortBy(after, EntryName), services := services))
  {
    hide TeamShape, SortBy, DatabaseShape, ServiceShape, ComponentEntry, ApplicationShape;
    forall a <- SortBy(after, EntryName) ensures ApplicationShape(t.databases, a) {
      SortedMembers(after, EntryName, a);
      if a in t.applications {
        OwnApplications(t, a);
      } else {
        ComponentShape(t, s, a);
      }
    }
    SameTeamShape(t, t.(applications := SortBy(after, EntryName), services := services));
  }

  lemma OwnApplications(t: Tenant, a: Entry)
    requires Shape(t) && a in t.applications
    ensures ApplicationShape(t.databases, a)
  {
    hide ApplicationShape, ServiceShape, DatabaseShape, TeamShape;
  }

  /** An entry as an activation leaves it: active, with the reference its role gives it. */
  predicate ComponentEntry(t: Tenant, s: Service, e: Entry) {
    e.lifecycle.Active? && e.request == "" && e.path == AppLeaf(e.name) && (e.databaseRef == "" || e.databaseRef == s.databaseRef)
  }

  lemma ComponentShape(t: Tenant, s: Service, e: Entry)
    requires ServiceShape(t.databases, s) && ComponentEntry(t, s, e) && e.name in s.components
    ensures ApplicationShape(t.databases, e)
  {
    hide ValidName, HasEntry, ServiceLifecycleOk;
    ApiNameIsValid(s.name);
  }

  /** Every entry an activation leaves is untouched or as described. */
  lemma {:induction false} ComponentEntries(t: Tenant, before: seq<Entry>, team: string, s: Service, components: seq<string>)
    requires DistinctBy(before, EntryName) && AllWrites(ComponentActions(team, before, s, components))
    requires forall e <- before :: e.path == AppLeaf(e.name) && LifecycleOk(e.lifecycle, e.request)
    ensures forall e <- WithComponents(before, s, components) :: e in before || (e.name in components && ComponentEntry(t, s, e))
    ensures forall e <- WithComponents(before, s, components) :: e.path == AppLeaf(e.name) && LifecycleOk(e.lifecycle, e.request)
    decreases |components|
  {
    hide Index, DistinctBy, ComponentFile, IsUuid;
    if components != [] {
      var init, c := components[..|components| - 1], components[|components| - 1];
      var middle := WithComponents(before, s, init);
      assert components == init + [c];
      assert forall a <- ComponentActions(team, before, s, init) :: a in ComponentActions(team, before, s, components);
      ComponentEntries(t, before, team, s, init);
      assert ComponentAction(team, middle, s, c) in ComponentActions(team, before, s, components);
      var j := Index(middle, EntryName, c);
      if j >= 0 {
        assert middle[j] in middle;
      }
    }
  }

  lemma ServiceActivateSound(tenants: seq<Tenant>, i: nat, q: Request)
    requires Prepared(tenants, i, q) && q.operation.ServiceActivate? && AllWrites(PlanServiceActivate(tenants, i, q).actions)
    ensures var j := Index(tenants[i].services, ServiceName, q.p.name);
            && j >= 0
            && (ComponentsFresh(tenants, i, tenants[i].services[j].components) ==> Sound(tenants, PlanServiceActivate(tenants, i, q)))
            && (!ComponentsFresh(tenants, i, tenants[i].services[j].components) ==> !UniqueNames(AllNames(PlanServiceActivate(tenants, i, q).tenants)))
  {
    hide UniqueNames, AllNames, Shape, Index, SortBy, ComponentsFresh, WithComponents, ComponentActions, Sound, DesiredStateOk, ValidName, Activated, DistinctBy, NamesOf;
    RefusalFails(tenants, Conflict);
    RefusalFails(tenants, NotFound);
    var t, j := tenants[i], Index(tenants[i].services, ServiceName, q.p.name);
    var s := t.services[j].(version := q.p.version);
    var active := s.(lifecycle := Active);
    var writes := ComponentActions(q.p.team, t.applications, s, s.components);
    var plan := PlanServiceActivate(tenants, i, q);
    assert forall a <- writes :: a in plan.actions;
    UniqueIsSeparate(tenants);
    SeparateTenant(tenants, i);
    TenantShape(tenants, i, q);
    ComponentsActivate(t.applications, q.p.team, s, s.components);
    var after := WithComponents(t.applications, s, s.components);
    ActivatedMeans(t.applications, after, writes, q.p.team, s);
    SameNames(t.services, t.services[j := active], ServiceName);
    ActivationUnique(tenants, i, after, t.services[j := active], s.components);
    if ComponentsFresh(tenants, i, s.components) {
      ActivationSound(tenants, i, q, j, after, writes);
    }
  }

  lemma ActivatedMeans(before: seq<Entry>, after: seq<Entry>, writes: seq<Action>, team: string, s: Service)
    requires Activated(before, after, writes, team, s, s.components)
    ensures (forall e <- after :: e in before || e.name in s.components) && (forall c <- s.components :: HasEntry(after, c))
    ensures (forall e <- after :: e.name !in s.components ==> e in before) && forall a <- writes :: ActionSource(a).None?
  {
    hide ComponentFile, HasEntry;
  }

  lemma ActivationSound(tenants: seq<Tenant>, i: nat, q: Request, j: nat, after: seq<Entry>, writes: seq<Action>)
    requires Prepared(tenants, i, q) && q.operation.ServiceActivate? && j < |tenants[i].services|
    requires var t := tenants[i];
             var s := t.services[j].(version := q.p.version);
             var active := s.(lifecycle := Active);
             && !t.services[j].lifecycle.Retiring?
             && DistinctBy(t.applications, EntryName) && writes == ComponentActions(q.p.team, t.applications, s, s.components) && AllWrites(writes)
             && after == WithComponents(t.applications, s, s.components)
             && (forall e <- after :: e.name !in s.components ==> e in t.applications) && (forall a <- writes :: ActionSource(a).None?)
             && UniqueNames(AllNames(tenants[i := t.(applications := SortBy(after, EntryName), services := t.services[j := active])]))
    ensures var t := tenants[i];
            var active := t.services[j].(version := q.p.version, lifecycle := Active);
            Sound(tenants, Plan(tenants[i := t.(applications := SortBy(after, EntryName), services := t.services[j := active])], writes + [WriteVersion(active)]))
  {
    hide UniqueNames, AllNames, Shape, SortBy, WithComponents, ComponentActions, DesiredStateOk, ValidName, DistinctBy, ApplicationShape, ServiceShape, ComponentEntry;
    var t := tenants[i];
    var s := t.services[j].(version := q.p.version);
    var active := s.(lifecycle := Active);
    var services, actions := t.services[j := active], writes + [WriteVersion(active)];
    var changed := t.(applications := SortBy(after, EntryName), services := services);
    TenantShape(tenants, i, q);
    EntriesOfShape(t, j);
    VersionShape(t.databases, t.services[j], q.p.version);
    ApplicationsOfShape(t);
    ComponentEntries(t, t.applications, q.p.team, s, s.components);
    OwnServices(t);
    assert t.services[j] in t.services;
    PathIsName(t, t.services[j]);
    ActivatedShape(t, s, after, services);
    forall u <- tenants[i := changed] ensures Shape(u) {
      var k :| 0 <= k < |tenants| && tenants[i := changed][k] == u;
      assert tenants[k] in tenants;
    }
    forall u <- tenants[i := changed], x <- u.services ensures SourceKept(tenants, actions, x) {
      var k :| 0 <= k < |tenants| && tenants[i := changed][k] == u;
      ActivatedSource(tenants, i, j, active, actions, k, x);
    }
  }

  lemma OwnServices(t: Tenant)
    requires Shape(t)
    ensures forall x <- t.services :: ServiceShape(t.databases, x)
  {
    hide ServiceShape, ApplicationShape, DatabaseShape, TeamShape;
  }

  lemma ApplicationsOfShape(t: Tenant)
    requires Shape(t)
    ensures forall e <- t.applications :: e.path == AppLeaf(e.name) && LifecycleOk(e.lifecycle, e.request)
  {
    hide ServiceShape, DatabaseShape, TeamShape, ValidName, LifecycleOk, HasEntry;
  }

  lemma VersionShape(databases: seq<Entry>, s: Service, version: Version)
    requires ServiceShape(databases, s) && version.Version? && !s.lifecycle.Retiring?
    ensures ServiceShape(databases, s.(version := version)) && ServiceShape(databases, s.(version := version, lifecycle := Active))
  {
    hide ValidName, HasEntry, TemplateComponents;
  }

  lemma ActivatedSource(tenants: seq<Tenant>, i: nat, j: nat, active: Service, actions: seq<Action>, k: nat, x: Service)
    requires i < |tenants| && j < |tenants[i].services| && k < |tenants| && active.name == tenants[i].services[j].name && active.path == active.name
    requires (forall t <- tenants :: Shape(t)) && UniqueNames(AllNames(tenants)) && WriteVersion(active) in actions
    requires forall a <- actions :: ActionSource(a).Some? ==> a == WriteVersion(active)
    requires if k == i then x in tenants[i].services[j := active] else x in tenants[k].services
    ensures SourceKept(tenants, actions, x)
  {
    hide Shape, UniqueNames, AllNames, Separate, TouchedSource;
    UniqueIsSeparate(tenants);
    SeparateTenant(tenants, i);
    assert tenants[k] in tenants && tenants[i] in tenants;
    if x != active {
      if k == i {
        var l :| 0 <= l < |tenants[i].services| && tenants[i].services[j := active][l] == x;
        assert l != j && ServiceName(tenants[i].services[l]) != ServiceName(tenants[i].services[j]);
      } else {
        OtherService(tenants, i, j, k, x);
      }
      assert x in tenants[k].services;
      PathIsName(tenants[k], x);
      Untouched(actions, active, x);
      assert HasSource(tenants, x.path);
    }
  }

  lemma OtherService(tenants: seq<Tenant>, i: nat, j: nat, k: nat, x: Service)
    requires Separate(tenants) && i < |tenants| && j < |tenants[i].services| && k < |tenants| && k != i && x in tenants[k].services
    ensures x.name != tenants[i].services[j].name
  {
    hide DistinctBy, TenantHas;
    assert tenants[i].services[j] in tenants[i].services;
    assert TenantHasService(tenants[i], tenants[i].services[j].name) && TenantHasService(tenants[k], x.name);
  }

  lemma Untouched(actions: seq<Action>, active: Service, x: Service)
    requires (forall a <- actions :: ActionSource(a).Some? ==> a == WriteVersion(active)) && x.path != active.path
    ensures !TouchedSource(actions, x.path)
  {
  }

  // ---------------------------------------------------------------- retire

  lemma ServiceRetireSound(tenants: seq<Tenant>, i: nat, q: Request)
    requires Prepared(tenants, i, q) && AllWrites(PlanServiceRetire(tenants, i, q).actions)
    ensures Sound(tenants, PlanServiceRetire(tenants, i, q))
  {
    hide UniqueNames, AllNames, Shape, Index, Sound, DesiredStateOk, ValidName, RetireService, ApproveNamed, IsUuid, TenantNames, OwnedDatabase;
    RefusalFails(tenants, Conflict);
    RefusalFails(tenants, NotFound);
    var t, j := tenants[i], Index(tenants[i].services, ServiceName, q.p.name);
    var r, actions := RetireService(t, j, q.id), PlanServiceRetire(tenants, i, q).actions;
    RetirementActions(tenants, i, j, q);
    UniqueIsSeparate(tenants);
    SeparateTenant(tenants, i);
    TenantShape(tenants, i, q);
    RetireServiceShape(t, j, q.id);
    RetireServiceNames(t, j, q.id);
    NamesShrink(tenants, i, r);
    forall s <- r.services ensures exists s0 <- t.services :: s0.path == s.path {
      RetiredServicePath(t, j, q.id, s);
    }
    InPlaceIsSound(tenants, i, r, actions);
  }

  lemma RetiredServicePath(t: Tenant, j: nat, id: string, s: Service)
    requires j < |t.services| && s in RetireService(t, j, id).services
    ensures exists s0 <- t.services :: s0.path == s.path
  {
    hide RetireNamed, OwnedDatabase;
    var k :| 0 <= k < |t.services| && t.services[j := RetiredService(t.services[j], id)][k] == s;
    assert t.services[k] in t.services;
  }

  lemma RetireServiceNames(t: Tenant, j: nat, id: string)
    requires j < |t.services| && DistinctBy(t.applications, EntryName)
    ensures Contains(TenantNames(t), TenantNames(RetireService(t, j, id)))
  {
    hide RetireNamed, OwnedDatabase, NamedRetired, NamesOf, DistinctBy;
    var r, s := RetireService(t, j, id), t.services[j];
    NamesRetire(t.applications, s.components, id);
    NamedRetiredNames(t.applications, r.applications, s.components, id);
    SameNames(t.applications, r.applications, EntryName);
    SameNames(t.databases, r.databases, EntryName);
    SameNames(t.services, r.services, ServiceName);
  }

  lemma NamedRetiredNames(before: seq<Entry>, after: seq<Entry>, names: seq<string>, id: string)
    requires NamedRetired(before, after, names, id)
    ensures |after| == |before| && forall i :: 0 <= i < |before| ==> after[i].name == before[i].name
  {
  }

  lemma RetireServiceShape(t: Tenant, j: nat, id: string)
    requires Shape(t) && j < |t.services| && IsUuid(id) && DistinctBy(t.applications, EntryName)
    ensures Shape(RetireService(t, j, id))
  {
    hide RetireNamed, OwnedDatabase, ValidName, OwnersOk, IsUuid, HasEntry, TemplateComponents, DistinctBy, NamedRetired;
    var r, s := RetireService(t, j, id), t.services[j];
    NamesRetire(t.applications, s.components, id);
    forall d <- r.databases ensures DatabaseShape(d) {
      var k :| 0 <= k < |r.databases| && r.databases[k] == d;
      assert t.databases[k] in t.databases;
    }
    forall name | HasEntry(t.databases, name) ensures HasEntry(r.databases, name) {
      NameStays(t.databases, r.databases, name);
    }
    forall a <- r.applications ensures ApplicationShape(r.databases, a) {
      RetiredApplicationShape(t, r.databases, r.applications, s.components, id, a);
    }
    forall x <- r.services ensures ServiceShape(r.databases, x) {
      var k :| 0 <= k < |r.services| && r.services[k] == x;
      assert t.services[k] in t.services;
    }
  }

  lemma RetiredApplicationShape(t: Tenant, databases: seq<Entry>, after: seq<Entry>, names: seq<string>, id: string, a: Entry)
    requires Shape(t) && IsUuid(id) && NamedRetired(t.applications, after, names, id) && a in after
    requires forall name :: HasEntry(t.databases, name) ==> HasEntry(databases, name)
    ensures ApplicationShape(databases, a)
  {
    hide ValidName, OwnersOk, IsUuid, HasEntry, TemplateComponents, ServiceShape, DatabaseShape, TeamShape;
    var k :| 0 <= k < |after| && after[k] == a;
    assert t.applications[k] in t.applications;
  }

  // ---------------------------------------------------------------- finalize

  /** What a finalized service leaves behind does not refer to the database that goes with it. */
  predicate OwnedUnreferenced(t: Tenant, s: Service) {
    s.ownsDatabase && s.databaseRef != "" ==>
      && (forall a <- t.applications :: a.name !in s.components ==> a.databaseRef != s.databaseRef)
      && (forall x <- t.services :: x.name != s.name ==> x.databaseRef != s.databaseRef)
  }

  lemma FinalizedShape(t: Tenant, s: Service)
    requires Shape(t) && s in t.services
    ensures OwnedUnreferenced(t, s) ==> Shape(FinalizeService(t, s))
  {
    hide Without, ValidName, OwnersOk, LifecycleOk, TemplateComponents, ServiceLifecycleOk;
    var r := FinalizeService(t, s);
    if OwnedUnreferenced(t, s) {
      forall a <- r.applications ensures ApplicationShape(r.databases, a) {
        if a.databaseRef != "" {
          StillReferenced(t, s, a.databaseRef);
        }
      }
      forall x <- r.services ensures ServiceShape(r.databases, x) {
        if x.databaseRef != "" {
          StillReferenced(t, s, x.databaseRef);
        }
      }
    }
  }

  lemma StillReferenced(t: Tenant, s: Service, ref: string)
    requires Shape(t) && HasEntry(t.databases, ref) && (s.ownsDatabase ==> ref != s.databaseRef)
    ensures HasEntry(FinalizeService(t, s).databases, ref)
  {
    hide Without, Shape;
    var d :| d in t.databases && d.name == ref;
    assert d in FinalizeService(t, s).databases;
  }

  lemma ServiceFinalizeSound(repo: Repository, tenants: seq<Tenant>, i: nat, q: Request)
    requires Prepared(tenants, i, q) && Derived(tenants) && AllWrites(PlanServiceFinalize(tenants, i, q).actions)
    ensures var j := Index(tenants[i].services, ServiceName, q.p.name);
            j >= 0 && (tenants[i].services[j].ownsTeam || OwnedUnreferenced(tenants[i], tenants[i].services[j]) ==> Sound(tenants, PlanServiceFinalize(tenants, i, q)))
  {
    hide UniqueNames, AllNames, Shape, Index, Sound, RequestOk, FinalizeService, DropNamed, OwnedDatabase, Without, OwnedUnreferenced, Derived, TenantHas;
    RefusalFails(tenants, Conflict);
    RefusalFails(tenants, NotFound);
    var t, j := tenants[i], Index(tenants[i].services, ServiceName, q.p.name);
    var s, plan := t.services[j], PlanServiceFinalize(tenants, i, q);
    assert s in t.services;
    FinalizationActions(repo, tenants, i, j, q);
    forall a <- plan.actions | ActionSource(a).Some? ensures exists x <- t.services :: x.path == ActionSource(a).value {
      assert a == DropSource(s);
    }
    if s.ownsTeam {
      RemovalIsSound(tenants, i, plan.actions);
    } else if OwnedUnreferenced(t, s) {
      FinalizationSound(tenants, i, q, j, plan.actions);
    }
  }

  lemma FinalizationSound(tenants: seq<Tenant>, i: nat, q: Request, j: nat, actions: seq<Action>)
    requires Prepared(tenants, i, q) && j < |tenants[i].services| && OwnedUnreferenced(tenants[i], tenants[i].services[j])
    requires forall a <- actions :: ActionSource(a).Some? ==> a == DropSource(tenants[i].services[j])
    ensures Sound(tenants, Plan(tenants[i := FinalizeService(tenants[i], tenants[i].services[j])], actions))
  {
    hide UniqueNames, AllNames, Shape, RequestOk, FinalizeService, OwnedUnreferenced, TenantNames;
    var t, s := tenants[i], tenants[i].services[j];
    var r := FinalizeService(t, s);
    TenantShape(tenants, i, q);
    FinalizedShape(t, s);
    FinalizedNames(t, s);
    NamesShrink(tenants, i, r);
    UniqueIsSeparate(tenants);
    forall u <- tenants[i := r] ensures Shape(u) {
      var k :| 0 <= k < |tenants| && tenants[i := r][k] == u;
      assert tenants[k] in tenants;
    }
    forall u <- tenants[i := r], x <- u.services ensures SourceKept(tenants, actions, x) {
      var k :| 0 <= k < |tenants| && tenants[i := r][k] == u;
      FinalizedSource(tenants, i, j, actions, k, x);
    }
  }

  lemma FinalizedNames(t: Tenant, s: Service)
    ensures Contains(TenantNames(t), TenantNames(FinalizeService(t, s)))
    ensures forall x <- FinalizeService(t, s).services :: x in t.services && x.name != s.name
  {
    hide Without, NamesOf;
    FewerNames(t.applications, EntryName, s.components);
    FewerNames(t.databases, EntryName, [s.databaseRef]);
    FewerNames(t.services, ServiceName, [s.name]);
  }

  lemma FinalizedSource(tenants: seq<Tenant>, i: nat, j: nat, actions: seq<Action>, k: nat, x: Service)
    requires i < |tenants| && j < |tenants[i].services| && k < |tenants| && (forall t <- tenants :: Shape(t)) && Separate(tenants)
    requires forall a <- actions :: ActionSource(a).Some? ==> a == DropSource(tenants[i].services[j])
    requires x in if k == i then FinalizeService(tenants[i], tenants[i].services[j]).services else tenants[k].services
    ensures SourceKept(tenants, actions, x)
  {
    hide Shape, Separate, FinalizeService, TouchedSource;
    var s := tenants[i].services[j];
    assert tenants[k] in tenants && tenants[i] in tenants && s in tenants[i].services;
    FinalizedNames(tenants[i], s);
    if k != i {
      OtherService(tenants, i, j, k, x);
    }
    PathIsName(tenants[k], x);
    PathIsName(tenants[i], s);
    UntouchedByDrop(actions, s, x);
    assert HasSource(tenants, x.path);
  }

  lemma UntouchedByDrop(actions: seq<Action>, s: Service, x: Service)
    requires (forall a <- actions :: ActionSource(a).Some? ==> a == DropSource(s)) && x.path != s.path
    ensures !TouchedSource(actions, x.path)
  {
  }
}
