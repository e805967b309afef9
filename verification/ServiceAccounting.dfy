/** The operations on whole tenants and on services account for every leaf too. */
module ServiceAccounting {
  import opened Catalog
  import opened CatalogValidation
  import opened CatalogFacts
  import opened ChangePlan
  import opened OverlayFacts
  import opened RenderSafety
  import opened RenderAccounting

  // ---------------------------------------------------------------- teams

  lemma TeamCreateAccounted(repo: Repository, tenants: seq<Tenant>, q: Request)
    requires Execute(repo, PlanTeamCreate(tenants, q).actions).Ok?
    ensures Accounted(repo, tenants, PlanTeamCreate(tenants, q), q)
  {
    hide Execute, Index, SortBy, Accounts, WrittenOver, HasLeaf, Spares;
    Refusals(repo, tenants, Conflict, q);
    NotNamed(tenants, q.p.name);
    var leaf, file := TeamLeaf(q.p.name), TeamFile(q.p.name, q.p);
    var action, t := WriteLeaf(leaf, file), NewTenant(q.p.name, q.p.owners);
    FreshWrite(repo, tenants, leaf, file);
    SparesFresh(tenants, -1, action);
    assert TeamAccounted(repo, tenants, [action], q, t);
    LeafByLeaf(repo, tenants, [action], q, t);
    Added(repo, tenants, tenants + [t], t, [action], q);
  }

  lemma TeamUpdateAccounted(repo: Repository, tenants: seq<Tenant>, i: nat, q: Request)
    requires Separate(tenants) && i < |tenants| && tenants[i].name == q.p.name && tenants[i].lifecycle.Active?
    ensures Accounted(repo, tenants, PlanTeamUpdate(tenants, i, q), q)
  {
    hide Execute, SortBy, Accounts, WrittenOver, HasLeaf, Spares, Separate, EntryAccounted;
    var t := tenants[i].(owners := Normalize(q.p.owners));
    var leaf, file := TeamLeaf(q.p.name), TeamFile(q.p.name, q.p);
    var action, was := WriteLeaf(leaf, file), Listed(leaf, Active, tenants[i].request);
    assert tenants[i] in tenants && TenantLists(tenants[i], was);
    Rewrite(repo, tenants, was, file);
    SparesOwn(tenants, i, action);
    assert TeamAccounted(repo, tenants, [action], q, t);
    forall e <- t.applications ensures EntryAccounted(repo, tenants, [action], q, AppLeaf(e.name), e) {
      EntryKept(repo, tenants, [action], q, i, e, false);
    }
    forall e <- t.databases ensures EntryAccounted(repo, tenants, [action], q, DatabaseLeaf(e.name), e) {
      EntryKept(repo, tenants, [action], q, i, e, true);
    }
    LeafByLeaf(repo, tenants, [action], q, t);
    InPlace(repo, tenants, i, t, [action], q);
  }

  /** Actions that all approve under one request cannot disagree. */
  lemma ApprovalsAgree(actions: seq<Action>, q: Request)
    requires forall a <- actions :: a.Approve? && a == Approve(a.leaf, q.id, q.p.force)
    ensures Unanimous(actions)
  {
  }

  /** Actions whose leaves all belong to one tenant spare the others. */
  lemma SparesAllOwn(tenants: seq<Tenant>, i: nat, actions: seq<Action>)
    requires Separate(tenants) && i < |tenants| && forall a <- actions :: ActionLeaf(a).Some? ==> TenantHas(tenants[i], ActionLeaf(a).value)
    ensures Spares(tenants, i, actions)
  {
    hide TenantHas, Separate;
    forall k, a | 0 <= k < |tenants| && k != i && a in actions && ActionLeaf(a).Some? ensures !TenantHas(tenants[k], ActionLeaf(a).value) {
      OwnLeaf(tenants, i, ActionLeaf(a).value);
    }
  }

  lemma HasOwn(tenants: seq<Tenant>, i: nat, leaf: Leaf)
    requires i < |tenants| && TenantHas(tenants[i], leaf)
    ensures HasLeaf(tenants, leaf)
  {
    assert tenants[i] in tenants;
  }

  lemma TeamDeleteAccounted(repo: Repository, tenants: seq<Tenant>, i: nat, q: Request)
    requires Separate(tenants) && i < |tenants| && tenants[i].name == q.p.name
    ensures Accounted(repo, tenants, PlanTeamDelete(tenants, i, q), q)
  {
    hide Accounts, HasLeaf, Spares, Separate, EntryAccounted, TeamAccounted, Unanimous;
    var t := tenants[i];
    var plan := PlanTeamDelete(tenants, i, q);
    var first, apps, databases := [Approve(TeamLeaf(q.p.name), q.id, q.p.force)], Approvals(t.applications, false, q), Approvals(t.databases, true, q);
    assert plan.actions == first + apps + databases;
    forall a <- plan.actions ensures a.Approve? && a == Approve(a.leaf, q.id, q.p.force) && TenantHas(t, a.leaf) {
      ApprovalIsOwn(t, q, a);
    }
    ApprovalsAgree(plan.actions, q);
    SparesAllOwn(tenants, i, plan.actions);
    HasOwn(tenants, i, TeamLeaf(t.name));
    TeamApproved(repo, tenants, plan.actions, q, RetireTenant(t, q.id));
    forall e <- RetireTenant(t, q.id).applications ensures EntryAccounted(repo, tenants, plan.actions, q, AppLeaf(e.name), e) {
      EntryApproved(repo, tenants, i, plan.actions, q, e, false, apps);
    }
    forall e <- RetireTenant(t, q.id).databases ensures EntryAccounted(repo, tenants, plan.actions, q, DatabaseLeaf(e.name), e) {
      EntryApproved(repo, tenants, i, plan.actions, q, e, true, databases);
    }
    LeafByLeaf(repo, tenants, plan.actions, q, RetireTenant(t, q.id));
    InPlace(repo, tenants, i, RetireTenant(t, q.id), plan.actions, q);
  }

  lemma ApprovalIsOwn(t: Tenant, q: Request, a: Action)
    requires t.name == q.p.name
    requires a in [Approve(TeamLeaf(q.p.name), q.id, q.p.force)] + Approvals(t.applications, false, q) + Approvals(t.databases, true, q)
    ensures a.Approve? && a == Approve(a.leaf, q.id, q.p.force) && TenantHas(t, a.leaf)
  {
    if a in Approvals(t.applications, false, q) {
      var k :| 0 <= k < |t.applications| && Approvals(t.applications, false, q)[k] == a;
      assert t.applications[k] in t.applications;
    } else if a in Approvals(t.databases, true, q) {
      var k :| 0 <= k < |t.databases| && Approvals(t.databases, true, q)[k] == a;
      assert t.databases[k] in t.databases;
    }
  }

  lemma TeamApproved(repo: Repository, tenants: seq<Tenant>, actions: seq<Action>, q: Request, t: Tenant)
    requires t.lifecycle.Retiring? && t.request == q.id && Approve(TeamLeaf(t.name), q.id, q.p.force) in actions && HasLeaf(tenants, TeamLeaf(t.name))
    ensures TeamAccounted(repo, tenants, actions, q, t)
  {
    hide Kept, Written, HasLeaf;
  }

  lemma EntryApproved(repo: Repository, tenants: seq<Tenant>, i: nat, actions: seq<Action>, q: Request, e: Entry, databases: bool, part: seq<Action>)
    requires i < |tenants| && part == Approvals(EntriesOf(tenants[i], databases), databases, q) && (forall a <- part :: a in actions)
    requires e in RetireEntries(EntriesOf(tenants[i], databases), q.id)
    ensures EntryAccounted(repo, tenants, actions, q, LeafOf(e.name, databases), e)
  {
    hide Kept, Written, HasLeaf;
    var entries := EntriesOf(tenants[i], databases);
    var k :| 0 <= k < |entries| && RetireEntries(entries, q.id)[k] == e;
    assert part[k] in part;
    EntryListed(tenants, i, databases, k);
  }

  /** The actions of a finalization drop what belongs to the tenant. */
  lemma TeamFinalizeAccounted(repo: Repository, tenants: seq<Tenant>, i: nat, q: Request)
    requires Separate(tenants) && Derived(tenants) && i < |tenants| && tenants[i].name == q.p.name
    requires Execute(repo, PlanTeamFinalize(tenants, i, q).actions).Ok?
    ensures Accounted(repo, tenants, PlanTeamFinalize(tenants, i, q), q)
  {
    hide Execute, Accounts, HasLeaf, Spares, Separate, Unanimous, Without, Derived;
    Refusals(repo, tenants, Conflict, q);
    var t, plan := tenants[i], PlanTeamFinalize(tenants, i, q);
    assert t in tenants;
    SeparateTenant(tenants, i);
    OwnPaths(tenants, t);
    forall a <- plan.actions ensures DropsOwn(t, a) {
      FinalizeDropsOwn(t, q, a);
    }
    DropsAgree(t, plan.actions);
    SparesAllOwn(tenants, i, plan.actions);
    Removed(repo, tenants, i, plan.actions, q);
  }

  lemma OwnPaths(tenants: seq<Tenant>, t: Tenant)
    requires Derived(tenants) && t in tenants
    ensures t.path == TeamLeaf(t.name) && (forall a <- t.applications :: a.path == AppLeaf(a.name))
    ensures (forall d <- t.databases :: d.path == DatabaseLeaf(d.name)) && forall s <- t.services :: s.path == s.name
  {
  }

  predicate DropsOwn(t: Tenant, a: Action) {
    || (a.DropLeaf? && TenantHas(t, a.leaf))
    || (a.DropSource? && a.service in t.services)
  }

  lemma FinalizeDropsOwn(t: Tenant, q: Request, a: Action)
    requires t.name == q.p.name
    requires (forall e <- t.applications :: e.path == AppLeaf(e.name)) && (forall d <- t.databases :: d.path == DatabaseLeaf(d.name))
    requires a in [DropLeaf(TeamLeaf(q.p.name))] + Drops(t.applications) + Drops(t.databases) + SourceDrops(t.services)
    ensures DropsOwn(t, a)
  {
    if a in Drops(t.applications) {
      var k :| 0 <= k < |t.applications| && Drops(t.applications)[k] == a;
      assert t.applications[k] in t.applications;
    } else if a in Drops(t.databases) {
      var k :| 0 <= k < |t.databases| && Drops(t.databases)[k] == a;
      assert t.databases[k] in t.databases;
    } else if a in SourceDrops(t.services) {
      var k :| 0 <= k < |t.services| && SourceDrops(t.services)[k] == a;
    }
  }

  lemma DropsAgree(t: Tenant, actions: seq<Action>)
    requires DistinctBy(t.services, ServiceName) && (forall s <- t.services :: s.path == s.name) && forall a <- actions :: DropsOwn(t, a)
    ensures Unanimous(actions)
  {
    hide TenantHas;
    forall a <- actions, b <- actions | ActionSource(a).Some? && ActionSource(a) == ActionSource(b) ensures a == b {
      var i :| 0 <= i < |t.services| && t.services[i] == a.service;
      var j :| 0 <= j < |t.services| && t.services[j] == b.service;
      assert ServiceName(t.services[i]) == ServiceName(t.services[j]);
    }
  }

  // ---------------------------------------------------------------- scaffold

  /** The action that writes a scaffolded database, when there is one. */
  lemma ScaffoldActionsAre(p: Parameters)
    ensures var actions := ScaffoldActions(p);
            && actions != [] && actions[|actions| - 1] == WriteSource(NewService(p))
            && (forall a <- actions :: a == WriteSource(NewService(p)) || (p.withDatabase && a.WriteLeaf? && a == actions[0] && a.leaf == DatabaseLeaf(p.name)))
            && (p.withDatabase ==> actions[0].WriteLeaf? && actions[0].leaf == DatabaseLeaf(p.name) && FreshFile(actions[0].manifest) && Stored(actions[0].manifest))
  {
  }

  /** The leaves of a tenant once a service was scaffolded in it. */
  lemma ScaffoldedEntries(repo: Repository, tenants: seq<Tenant>, t: Tenant, actions: seq<Action>, q: Request)
    requires var p := q.p; p.withDatabase ==> !AnyDatabase(tenants, p.name)
    requires forall a <- ScaffoldActions(q.p) :: a in actions
    requires TeamAccounted(repo, tenants, actions, q, t)
    requires forall e <- t.applications :: EntryAccounted(repo, tenants, actions, q, AppLeaf(e.name), e)
    requires forall e <- t.databases :: EntryAccounted(repo, tenants, actions, q, DatabaseLeaf(e.name), e)
    ensures Accounts(repo, tenants, actions, q, WithService(t, q.p))
  {
    hide EntryAccounted, TeamAccounted, SortBy, AnyDatabase, HasLeaf, ScaffoldActions, Kept, WrittenOver, NewService;
    var p := q.p;
    var after := WithService(t, p);
    ScaffoldActionsAre(p);
    NotNamed(tenants, p.name);
    forall e <- after.databases ensures EntryAccounted(repo, tenants, actions, q, DatabaseLeaf(e.name), e) {
      if p.withDatabase {
        AddedEntry(t.databases, NewEntry(DatabaseLeaf(p.name), ""));
        if e !in t.databases {
          FreshWrite(repo, tenants, DatabaseLeaf(p.name), ScaffoldActions(p)[0].manifest);
          EntryWritten(repo, tenants, actions, q, ScaffoldActions(p)[0], e);
        }
      }
    }
    assert TeamAccounted(repo, tenants, actions, q, after) by { SameTeam(repo, tenants, actions, q, t, after); }
    LeafByLeaf(repo, tenants, actions, q, after);
  }

  lemma SameTeam(repo: Repository, tenants: seq<Tenant>, actions: seq<Action>, q: Request, a: Tenant, b: Tenant)
    requires TeamAccounted(repo, tenants, actions, q, a) && a.name == b.name && a.lifecycle == b.lifecycle && a.request == b.request
    ensures TeamAccounted(repo, tenants, actions, q, b)
  {
    hide Kept, Written, Approved;
  }

  lemma EntryWritten(repo: Repository, tenants: seq<Tenant>, actions: seq<Action>, q: Request, a: Action, e: Entry)
    requires a in actions && a.WriteLeaf? && e.lifecycle.Active? && WrittenOver(repo, tenants, a.leaf, a.manifest)
    ensures EntryAccounted(repo, tenants, actions, q, a.leaf, e)
  {
    hide WrittenOver, Kept, Approved;
  }

  lemma ScaffoldInAccounted(repo: Repository, tenants: seq<Tenant>, i: nat, q: Request)
    requires i < |tenants| && q.p.withDatabase ==> !AnyDatabase(tenants, q.p.name)
    requires i < |tenants| && Execute(repo, PlanScaffoldIn(tenants, i, q.p, []).actions).Ok?
    ensures Accounted(repo, tenants, PlanScaffoldIn(tenants, i, q.p, []), q)
  {
    hide Execute, ScaffoldActions, WithService, Accounts, EntryAccounted, TeamAccounted, AnyDatabase, HasLeaf, DatabaseActive, NewService, Spares;
    var p, t := q.p, tenants[i];
    assert [] + [Fail(Conflict)] == Refuse(tenants, Conflict).actions;
    Refusals(repo, tenants, Conflict, q);
    var actions := ScaffoldActions(p);
    assert [] + actions == actions;
    ScaffoldActionsAre(p);
    NotNamed(tenants, p.name);
    ScaffoldSpares(tenants, i, p);
    TeamKept(repo, tenants, actions, q, i, t);
    forall e <- t.applications ensures EntryAccounted(repo, tenants, actions, q, AppLeaf(e.name), e) {
      EntryKept(repo, tenants, actions, q, i, e, false);
    }
    forall e <- t.databases ensures EntryAccounted(repo, tenants, actions, q, DatabaseLeaf(e.name), e) {
      NotTheNewOne(tenants, i, p, e);
      EntryKept(repo, tenants, actions, q, i, e, true);
    }
    ScaffoldedEntries(repo, tenants, t, actions, q);
    InPlace(repo, tenants, i, WithService(t, p), actions, q);
  }

  lemma NotTheNewOne(tenants: seq<Tenant>, i: nat, p: Parameters, e: Entry)
    requires i < |tenants| && e in tenants[i].databases && (p.withDatabase ==> !AnyDatabase(tenants, p.name))
    ensures !Touched(ScaffoldActions(p), DatabaseLeaf(e.name))
  {
    hide ScaffoldActions;
    ScaffoldActionsAre(p);
    assert tenants[i] in tenants && HasEntry(tenants[i].databases, e.name);
  }

  lemma ScaffoldSpares(tenants: seq<Tenant>, i: int, p: Parameters)
    requires p.withDatabase ==> !AnyDatabase(tenants, p.name)
    ensures Spares(tenants, i, ScaffoldActions(p)) && Unanimous(ScaffoldActions(p))
  {
    hide ScaffoldActions, TenantHas, HasLeaf, AnyDatabase, NewService;
    ScaffoldActionsAre(p);
    NotNamed(tenants, p.name);
    forall k, a | 0 <= k < |tenants| && k != i && a in ScaffoldActions(p) && ActionLeaf(a).Some? ensures !TenantHas(tenants[k], ActionLeaf(a).value) {
      if TenantHas(tenants[k], ActionLeaf(a).value) {
        HasOwn(tenants, k, ActionLeaf(a).value);
      }
    }
  }

  /** Sorting a new team in puts it at one place and moves nobody else's entries. */
  lemma NewTeamAt(tenants: seq<Tenant>, team: Tenant) returns (k: nat)
    requires UniqueNames(AllNames(tenants)) && Index(tenants, TenantName, team.name) < 0
    requires team.applications == [] && team.databases == [] && team.services == []
    ensures var longer := SortBy(tenants + [team], TenantName);
            && k < |longer| && Index(longer, TenantName, team.name) == k && longer[k] == team
            && UniqueNames(AllNames(longer)) && (forall j :: 0 <= j < |longer| && j != k ==> longer[j] in tenants)
            && AllNames(longer) == Join(AllNames(tenants), TenantNames(team)) && forall t <- tenants :: t in longer
  {
    hide Index, SortBy, Distinct, TenantNames, AllNames;
    var longer := SortBy(tenants + [team], TenantName);
    SortedTenantNames(tenants + [team]);
    AllNamesAppend(tenants, [team]);
    AllNamesOne(team);
    FreshTeamIsUnique(tenants, team);
    SortedMembers(tenants + [team], TenantName, team);
    var at :| 0 <= at < |longer| && longer[at] == team;
    UniqueIsSeparate(longer);
    assert TenantName(longer[at]) == team.name;
    k := Index(longer, TenantName, team.name);
    assert TenantHas(longer[k], TeamLeaf(team.name)) && TenantHas(longer[at], TeamLeaf(team.name));
    forall j | 0 <= j < |longer| && j != k ensures longer[j] in tenants {
      SortedMembers(tenants + [team], TenantName, longer[j]);
      assert TenantHas(longer[j], TeamLeaf(longer[j].name));
    }
    forall t <- tenants ensures t in longer {
      SortedMembers(tenants + [team], TenantName, t);
    }
  }

  lemma FreshTeamIsUnique(tenants: seq<Tenant>, team: Tenant)
    requires UniqueNames(AllNames(tenants)) && Index(tenants, TenantName, team.name) < 0
    requires team.applications == [] && team.databases == [] && team.services == []
    ensures UniqueNames(Join(AllNames(tenants), TenantNames(team)))
  {
    hide Index;
    TeamNamesAre(tenants, team.name);
    var names := AllNames(tenants);
    assert names.databases + multiset{} == names.databases && names.applications + multiset{} == names.applications && names.services + multiset{} == names.services;
    OneMoreName(names.teams, team.name);
  }

  lemma OneMoreName(names: multiset<string>, name: string)
    requires Distinct(names) && name !in names
    ensures Distinct(names + multiset{name})
  {
  }

  lemma {:induction false} TeamNamesAre(tenants: seq<Tenant>, name: string)
    ensures name in AllNames(tenants).teams <==> Index(tenants, TenantName, name) >= 0
  {
    if tenants != [] {
      TeamNamesAre(tenants[1..], name);
    }
  }

  lemma ServiceScaffoldAccounted(repo: Repository, tenants: seq<Tenant>, q: Request)
    requires UniqueNames(AllNames(tenants)) && (q.p.withDatabase ==> !AnyDatabase(tenants, q.p.name))
    requires Execute(repo, PlanServiceScaffold(tenants, q).actions).Ok?
    ensures Accounted(repo, tenants, PlanServiceScaffold(tenants, q), q)
  {
    hide Execute, Index, AnyService, AnyDatabase, PlanScaffoldIn, SortBy, UniqueNames, Accounted;
    var p := q.p;
    Refusals(repo, tenants, Conflict, q);
    Refusals(repo, tenants, NotFound, q);
    var i := Index(tenants, TenantName, p.team);
    if i >= 0 {
      if !p.createTeam && !AnyService(tenants, p.name) {
        ScaffoldInAccounted(repo, tenants, i, q);
      }
    } else if p.createTeam && p.team == p.name && !AnyService(tenants, p.name) {
      NewTeamScaffoldAccounted(repo, tenants, q);
    }
  }

  lemma NewTeamScaffoldAccounted(repo: Repository, tenants: seq<Tenant>, q: Request)
    requires UniqueNames(AllNames(tenants)) && (q.p.withDatabase ==> !AnyDatabase(tenants, q.p.name))
    requires Index(tenants, TenantName, q.p.team) < 0 && q.p.createTeam && q.p.team == q.p.name && !AnyService(tenants, q.p.name)
    ensures Accounted(repo, tenants, PlanServiceScaffold(tenants, q), q)
  {
    hide Execute, Index, AnyService, AnyDatabase, SortBy, UniqueNames, AllNames, Accounts, ScaffoldActions, WithService, EntryAccounted, TeamAccounted, Spares, Unanimous, HasLeaf, TeamFile;
    var p := q.p;
    var team := NewTenant(p.team, ServiceTeam(p).owners);
    var longer := SortBy(tenants + [team], TenantName);
    var k := NewTeamAt(tenants, team);
    var first := WriteLeaf(TeamLeaf(p.team), TeamFile(p.team, ServiceTeam(p)));
    var actions := [first] + ScaffoldActions(p);
    var plan := PlanServiceScaffold(tenants, q);
    NoDatabases(team, p.name);
    assert plan == Plan(longer[k := WithService(team, p)], actions);
    NotNamed(tenants, p.name);
    assert FreshFile(first.manifest) by { TeamFileIsFresh(p.team, ServiceTeam(p)); }
    FreshWrite(repo, tenants, first.leaf, first.manifest);
    assert TeamAccounted(repo, tenants, actions, q, team) by { TeamWritten(repo, tenants, actions, q, first, team); }
    ScaffoldedEntries(repo, tenants, team, actions, q);
    ScaffoldSpares(tenants, -1, p);
    SparesFresh(tenants, -1, first);
    SparesBoth(tenants, -1, first, ScaffoldActions(p));
    TeamFirst(p, first);
    forall s <- longer[k := WithService(team, p)] ensures s == WithService(team, p) || s in tenants {
      var j :| 0 <= j < |longer| && longer[k := WithService(team, p)][j] == s;
    }
    Added(repo, tenants, longer[k := WithService(team, p)], WithService(team, p), actions, q);
  }

  lemma NoDatabases(team: Tenant, name: string)
    requires team.databases == []
    ensures !DatabaseActive(team, name)
  {
  }

  lemma TeamFileIsFresh(name: string, p: Parameters)
    ensures FreshFile(TeamFile(name, p))
  {
  }

  lemma TeamWritten(repo: Repository, tenants: seq<Tenant>, actions: seq<Action>, q: Request, a: Action, t: Tenant)
    requires a in actions && a.WriteLeaf? && a.leaf == TeamLeaf(t.name) && t.lifecycle.Active? && WrittenOver(repo, tenants, a.leaf, a.manifest)
    ensures TeamAccounted(repo, tenants, actions, q, t)
  {
    hide WrittenOver, Kept, Approved;
  }

  lemma SparesBoth(tenants: seq<Tenant>, i: int, a: Action, rest: seq<Action>)
    requires Spares(tenants, i, [a]) && Spares(tenants, i, rest)
    ensures Spares(tenants, i, [a] + rest)
  {
    hide TenantHas;
    assert a in [a];
  }

  lemma TeamFirst(p: Parameters, first: Action)
    requires first.WriteLeaf? && first.leaf.TeamLeaf?
    ensures Unanimous([first] + ScaffoldActions(p))
  {
    hide ScaffoldActions, NewService;
    ScaffoldActionsAre(p);
  }

  // ---------------------------------------------------------------- activate

  /** An activation is carried out only when none of the components is retiring. */
  predicate AllWrites(actions: seq<Action>) { forall a <- actions :: !a.Fail? }

  /** What activating components does to the applications, component by component. */
  ghost predicate Activated(before: seq<Entry>, after: seq<Entry>, actions: seq<Action>, team: string, s: Service, components: seq<string>) {
    && (forall e <- after :: (e in before && e.name !in components) || (e.name in components && e.lifecycle.Active?))
    && (forall e <- before :: e.name in components ==> e.lifecycle.Active?)
    && (forall e <- before :: e.name !in components ==> e in after)
    && (forall a <- actions :: a.WriteLeaf? && a.leaf.AppLeaf? && a.leaf.name in components && a == WriteLeaf(a.leaf, ComponentFile(team, s, a.leaf.name)))
    && (forall c <- components :: WriteLeaf(AppLeaf(c), ComponentFile(team, s, c)) in actions)
    && (forall c <- components :: HasEntry(after, c))
  }

  lemma {:induction false} ComponentsActivate(before: seq<Entry>, team: string, s: Service, components: seq<string>)
    requires DistinctBy(before, EntryName) && AllWrites(ComponentActions(team, before, s, components))
    ensures Activated(before, WithComponents(before, s, components), ComponentActions(team, before, s, components), team, s, components)
    ensures DistinctBy(WithComponents(before, s, components), EntryName)
    decreases |components|
  {
    hide ComponentFile, ComponentRef, Activated, WithComponent, ComponentAction, DistinctBy, HasEntry;
    if components == [] {
      assert Activated(before, before, [], team, s, []) by { NothingActivated(before, team, s); }
    } else {
      var init, last := components[..|components| - 1], components[|components| - 1];
      var middle, actions := WithComponents(before, s, init), ComponentActions(team, before, s, init);
      var action := ComponentAction(team, middle, s, last);
      assert forall a <- actions :: a in ComponentActions(team, before, s, components);
      assert action in ComponentActions(team, before, s, components);
      ComponentsActivate(before, team, s, init);
      ActivateOneMore(before, middle, actions, team, s, init, last);
      assert components == init + [last];
    }
  }

  lemma NothingActivated(before: seq<Entry>, team: string, s: Service)
    ensures Activated(before, before, [], team, s, [])
  {
  }

  lemma ActivateOneMore(before: seq<Entry>, middle: seq<Entry>, actions: seq<Action>, team: string, s: Service, done: seq<string>, c: string)
    requires Activated(before, middle, actions, team, s, done) && DistinctBy(middle, EntryName) && !ComponentAction(team, middle, s, c).Fail?
    ensures Activated(before, WithComponent(middle, s, c), actions + [ComponentAction(team, middle, s, c)], team, s, done + [c])
    ensures DistinctBy(WithComponent(middle, s, c), EntryName)
  {
    hide ComponentFile, ComponentRef, Activated;
    var after, all := WithComponent(middle, s, c), actions + [ComponentAction(team, middle, s, c)];
    ComponentIn(middle, s, c);
    assert ComponentAction(team, middle, s, c) == WriteLeaf(AppLeaf(c), ComponentFile(team, s, c));
    ActivatedMore(before, middle, after, actions, team, s, done, c);
  }

  /** One component: its entry is active, the others are as before. */
  lemma ComponentIn(middle: seq<Entry>, s: Service, c: string)
    requires DistinctBy(middle, EntryName)
    requires var j := Index(middle, EntryName, c); j >= 0 ==> middle[j].lifecycle.Active?
    ensures var after := WithComponent(middle, s, c);
            && DistinctBy(after, EntryName) && HasEntry(after, c)
            && (forall e <- after :: (e in middle && e.name != c) || (e.name == c && e.lifecycle.Active?))
            && (forall e <- middle :: e.name == c ==> e.lifecycle.Active?)
            && forall e <- middle :: e.name != c ==> e in after
  {
    hide Index, ComponentRef;
    var j := Index(middle, EntryName, c);
    var after := WithComponent(middle, s, c);
    if j < 0 {
      assert forall k :: 0 <= k < |middle| ==> EntryName(middle[k]) != c;
      assert after[|middle|].name == c;
    } else {
      ReplacedEntry(middle, j, middle[j].(databaseRef := ComponentRef(s, c)));
      assert after[j].name == c;
      forall e <- middle ensures (e.name == c ==> e == middle[j]) && (e.name != c ==> e in after) {
        var k :| 0 <= k < |middle| && middle[k] == e;
        assert EntryName(middle[k]) == e.name && after[k] == if k == j then after[j] else e;
      }
    }
  }

  lemma ActivatedMore(before: seq<Entry>, middle: seq<Entry>, after: seq<Entry>, actions: seq<Action>, team: string, s: Service, done: seq<string>, c: string)
    requires Activated(before, middle, actions, team, s, done) && HasEntry(after, c)
    requires forall e <- after :: (e in middle && e.name != c) || (e.name == c && e.lifecycle.Active?)
    requires forall e <- middle :: e.name == c ==> e.lifecycle.Active?
    requires forall e <- middle :: e.name != c ==> e in after
    ensures Activated(before, after, actions + [WriteLeaf(AppLeaf(c), ComponentFile(team, s, c))], team, s, done + [c])
  {
    hide ComponentFile;
    var all, names := actions + [WriteLeaf(AppLeaf(c), ComponentFile(team, s, c))], done + [c];
    forall x <- names ensures HasEntry(after, x) {
      if x != c {
        var e :| e in middle && e.name == x;
        assert e in after;
      }
    }
    forall e <- before | e.name in names ensures e.lifecycle.Active? {
      if e.name !in done {
        assert e in middle;
      }
    }
  }

  /** No other tenant has an application named like a component. */
  ghost predicate ComponentsFresh(tenants: seq<Tenant>, i: nat, components: seq<string>) {
    forall k, c :: 0 <= k < |tenants| && k != i && c in components ==> !HasEntry(tenants[k].applications, c)
  }

  lemma SucceededWrites(repo: Repository, actions: seq<Action>)
    requires Execute(repo, actions).Ok?
    ensures AllWrites(actions)
  {
    hide Execute;
    forall a <- actions ensures !a.Fail? {
      NoneBlocked(repo, actions, a);
    }
  }

  lemma ServiceActivateAccounted(repo: Repository, tenants: seq<Tenant>, i: nat, q: Request)
    requires Separate(tenants) && i < |tenants| && Execute(repo, PlanServiceActivate(tenants, i, q).actions).Ok?
    requires var j := Index(tenants[i].services, ServiceName, q.p.name);
             j >= 0 ==> ComponentsFresh(tenants, i, tenants[i].services[j].components)
    ensures Accounted(repo, tenants, PlanServiceActivate(tenants, i, q), q)
  {
    hide Execute, Index, SortBy, Separate, ComponentsFresh, WithComponents, ComponentActions, Accounted, Activated, DistinctBy;
    Refusals(repo, tenants, Conflict, q);
    Refusals(repo, tenants, NotFound, q);
    var t, j := tenants[i], Index(tenants[i].services, ServiceName, q.p.name);
    if j >= 0 && !t.services[j].lifecycle.Retiring? {
      var s := t.services[j].(version := q.p.version);
      var active := s.(lifecycle := Active);
      var writes := ComponentActions(q.p.team, t.applications, s, s.components);
      SucceededWrites(repo, writes + [WriteVersion(active)]);
      assert forall a <- writes :: a in writes + [WriteVersion(active)];
      SeparateTenant(tenants, i);
      ComponentsActivate(t.applications, q.p.team, s, s.components);
      ActivatedIsAccounted(repo, tenants, i, WithComponents(t.applications, s, s.components), writes, q.p.team, s, t.services[j := active], WriteVersion(active), q);
    }
  }

  lemma ActivatedIsAccounted(repo: Repository, tenants: seq<Tenant>, i: nat, after: seq<Entry>, writes: seq<Action>, team: string, s: Service,
                             services: seq<Service>, version: Action, q: Request)
    requires i < |tenants| && ComponentsFresh(tenants, i, s.components) && version.WriteVersion?
    requires Activated(tenants[i].applications, after, writes, team, s, s.components)
    ensures Accounted(repo, tenants, Plan(tenants[i := tenants[i].(applications := SortBy(after, EntryName), services := services)], writes + [version]), q)
  {
    hide SortBy, Activated, EntryAccounted, TeamAccounted, Accounts, Spares, Unanimous;
    var t, actions := tenants[i], writes + [version];
    var changed := t.(applications := SortBy(after, EntryName), services := services);
    ActivationSpares(tenants, i, after, writes, team, s, version);
    ActivationTouches(t, after, writes, team, s, version, TeamLeaf(t.name));
    TeamKept(repo, tenants, actions, q, i, changed);
    forall e <- changed.applications ensures EntryAccounted(repo, tenants, actions, q, AppLeaf(e.name), e) {
      SortedMembers(after, EntryName, e);
      ComponentAccounted(repo, tenants, i, after, writes, team, s, version, q, e);
    }
    forall e <- changed.databases ensures EntryAccounted(repo, tenants, actions, q, DatabaseLeaf(e.name), e) {
      ActivationTouches(t, after, writes, team, s, version, DatabaseLeaf(e.name));
      EntryKept(repo, tenants, actions, q, i, e, true);
    }
    LeafByLeaf(repo, tenants, actions, q, changed);
    InPlace(repo, tenants, i, changed, actions, q);
  }

  lemma ActivationTouches(t: Tenant, after: seq<Entry>, writes: seq<Action>, team: string, s: Service, version: Action, leaf: Leaf)
    requires Activated(t.applications, after, writes, team, s, s.components) && version.WriteVersion?
    ensures Touched(writes + [version], leaf) ==> leaf.AppLeaf? && leaf.name in s.components
  {
    hide ComponentFile;
  }

  lemma ActivationSpares(tenants: seq<Tenant>, i: nat, after: seq<Entry>, writes: seq<Action>, team: string, s: Service, version: Action)
    requires i < |tenants| && ComponentsFresh(tenants, i, s.components) && version.WriteVersion?
    requires Activated(tenants[i].applications, after, writes, team, s, s.components)
    ensures Spares(tenants, i, writes + [version]) && Unanimous(writes + [version])
  {
    hide ComponentFile, HasEntry;
  }

  lemma ComponentAccounted(repo: Repository, tenants: seq<Tenant>, i: nat, after: seq<Entry>, writes: seq<Action>, team: string, s: Service,
                           version: Action, q: Request, e: Entry)
    requires i < |tenants| && ComponentsFresh(tenants, i, s.components) && version.WriteVersion? && e in after
    requires Activated(tenants[i].applications, after, writes, team, s, s.components)
    ensures EntryAccounted(repo, tenants, writes + [version], q, AppLeaf(e.name), e)
  {
    hide EntryAccounted, Touched, ComponentFile;
    if e.name in s.components {
      var a := WriteLeaf(AppLeaf(e.name), ComponentFile(team, s, e.name));
      ComponentOver(repo, tenants, i, team, s, e.name);
      assert a in writes + [version];
      EntryWritten(repo, tenants, writes + [version], q, a, e);
    } else {
      ActivationTouches(tenants[i], after, writes, team, s, version, AppLeaf(e.name));
      EntryKept(repo, tenants, writes + [version], q, i, e, false);
    }
  }

  lemma ComponentOver(repo: Repository, tenants: seq<Tenant>, i: nat, team: string, s: Service, c: string)
    requires i < |tenants| && c in s.components && ComponentsFresh(tenants, i, s.components)
    requires forall e <- tenants[i].applications :: e.name in s.components ==> e.lifecycle.Active?
    ensures WrittenOver(repo, tenants, AppLeaf(c), ComponentFile(team, s, c))
  {
    forall l | CatalogLists(tenants, l) && l.leaf == AppLeaf(c) ensures l.lifecycle.Active? {
      var t :| t in tenants && TenantLists(t, l);
      var k :| 0 <= k < |tenants| && tenants[k] == t;
      assert HasEntry(tenants[k].applications, c);
    }
  }

  // ---------------------------------------------------------------- retire

  /** The named entries that are present retire, the others stay as they were. */
  ghost predicate NamedRetired(before: seq<Entry>, after: seq<Entry>, names: seq<string>, id: string) {
    && (forall e <- after :: (e in before && e.name !in names) || (e.name in names && HasEntry(before, e.name) && e.lifecycle.Retiring? && e.request == id))
    && |after| == |before| && forall i :: 0 <= i < |before| ==> after[i].name == before[i].name
                                                                && (before[i].name !in names ==> after[i] == before[i])
                                                                && after[i].path == before[i].path && after[i].databaseRef == before[i].databaseRef
                                                                && (before[i].name in names ==> after[i].lifecycle.Retiring? && after[i].request == id)
  }

  lemma {:induction false} NamesRetire(before: seq<Entry>, names: seq<string>, id: string)
    requires DistinctBy(before, EntryName)
    ensures NamedRetired(before, RetireNamed(before, names, id), names, id)
    decreases |names|
  {
    hide Index, NamedRetired, DistinctBy;
    if names == [] {
      NobodyRetires(before, id);
    } else {
      var init, c := names[..|names| - 1], names[|names| - 1];
      NamesRetire(before, init, id);
      var middle := RetireNamed(before, init, id);
      RetireNext(before, middle, init, c, id);
      assert names == init + [c];
    }
  }

  lemma NobodyRetires(before: seq<Entry>, id: string)
    ensures NamedRetired(before, before, [], id)
  {
  }

  lemma RetireNext(before: seq<Entry>, middle: seq<Entry>, done: seq<string>, c: string, id: string)
    requires DistinctBy(before, EntryName) && NamedRetired(before, middle, done, id)
    ensures var j := Index(middle, EntryName, c);
            NamedRetired(before, if j < 0 then middle else middle[j := Retired(middle[j], id)], done + [c], id)
  {
    hide Index;
    var j := Index(middle, EntryName, c);
    var after := if j < 0 then middle else middle[j := Retired(middle[j], id)];
    forall k | 0 <= k < |before| ensures after[k].name == before[k].name
                                         && (before[k].name !in done + [c] ==> after[k] == before[k])
                                         && after[k].path == before[k].path && after[k].databaseRef == before[k].databaseRef
                                         && (before[k].name in done + [c] ==> after[k].lifecycle.Retiring? && after[k].request == id)
    {
      if before[k].name == c {
        assert EntryName(middle[k]) == c && j >= 0 && EntryName(middle[j]) == c;
        assert EntryName(before[k]) == EntryName(before[j]);
      }
    }
    forall e <- after ensures (e in before && e.name !in done + [c])
                              || (e.name in done + [c] && HasEntry(before, e.name) && e.lifecycle.Retiring? && e.request == id)
    {
      var k :| 0 <= k < |after| && after[k] == e;
      assert before[k] in before;
    }
  }

  lemma {:induction false} NamedApprovals(entries: seq<Entry>, names: seq<string>, q: Request)
    ensures forall a <- ApproveNamed(entries, names, q) ::
              a.Approve? && a.leaf.AppLeaf? && a == Approve(a.leaf, q.id, q.p.force) && a.leaf.name in names && HasEntry(entries, a.leaf.name)
    ensures forall e <- entries :: e.name in names ==> Approve(AppLeaf(e.name), q.id, q.p.force) in ApproveNamed(entries, names, q)
    decreases |names|
  {
    hide Index;
    if names != [] {
      var init, c := names[..|names| - 1], names[|names| - 1];
      NamedApprovals(entries, init, q);
      assert names == init + [c];
      var j := Index(entries, EntryName, c);
      forall e <- entries | e.name == c ensures j >= 0 {
        var k :| 0 <= k < |entries| && entries[k] == e;
        assert EntryName(entries[k]) == c;
      }
      if j >= 0 {
        assert entries[j] in entries;
      }
    }
  }

  /** The approvals of a retirement, by what they mark. */
  lemma RetirementActions(tenants: seq<Tenant>, i: nat, j: nat, q: Request)
    requires i < |tenants| && j < |tenants[i].services| && Index(tenants[i].services, ServiceName, q.p.name) == j
    requires !tenants[i].services[j].lifecycle.Retiring?
    ensures var t, s, k, actions := tenants[i], tenants[i].services[j], OwnedDatabase(tenants[i], tenants[i].services[j]), PlanServiceRetire(tenants, i, q).actions;
            && (forall a <- actions :: a.Approve? && a == Approve(a.leaf, q.id, q.p.force) && TenantHas(t, a.leaf))
            && (forall e <- t.applications :: e.name in s.components ==> Approve(AppLeaf(e.name), q.id, q.p.force) in actions)
            && (forall a <- actions :: a.leaf.AppLeaf? ==> a.leaf.name in s.components)
            && (forall a <- actions :: a.leaf.DatabaseLeaf? ==> k >= 0 && a.leaf.name == t.databases[k].name)
            && (k >= 0 ==> Approve(DatabaseLeaf(t.databases[k].name), q.id, q.p.force) in actions)
            && (s.ownsTeam ==> Approve(TeamLeaf(t.name), q.id, q.p.force) in actions)
            && (!s.ownsTeam ==> forall a <- actions :: !a.leaf.TeamLeaf?)
  {
    hide Index, ApproveNamed, OwnedDatabase, RetireService;
    var t, s, k := tenants[i], tenants[i].services[j], OwnedDatabase(tenants[i], tenants[i].services[j]);
    NamedApprovals(t.applications, s.components, q);
    var first := ApproveNamed(t.applications, s.components, q);
    var second := if k < 0 then [] else [Approve(DatabaseLeaf(t.databases[k].name), q.id, q.p.force)];
    var third := if s.ownsTeam then [Approve(TeamLeaf(t.name), q.id, q.p.force)] else [];
    assert PlanServiceRetire(tenants, i, q).actions == first + second + third;
    if k >= 0 {
      assert t.databases[k] in t.databases && second[0] in second;
    }
    if s.ownsTeam {
      assert third[0] in third;
    }
  }

  lemma ServiceRetireAccounted(repo: Repository, tenants: seq<Tenant>, i: nat, q: Request)
    requires Separate(tenants) && i < |tenants| && Execute(repo, PlanServiceRetire(tenants, i, q).actions).Ok?
    ensures Accounted(repo, tenants, PlanServiceRetire(tenants, i, q), q)
  {
    hide Execute, Index, Separate, Accounted, Accounts, EntryAccounted, TeamAccounted, Spares, Unanimous, RetireNamed, ApproveNamed, OwnedDatabase,
         HasLeaf, NamedRetired, DistinctBy, Touched, TenantHas, RetireService;
    Refusals(repo, tenants, Conflict, q);
    Refusals(repo, tenants, NotFound, q);
    var t, j := tenants[i], Index(tenants[i].services, ServiceName, q.p.name);
    if j >= 0 && !t.services[j].lifecycle.Retiring? {
      var s, plan := t.services[j], PlanServiceRetire(tenants, i, q);
      var retired := RetireService(t, j, q.id);
      RetirementActions(tenants, i, j, q);
      ApprovalsAgree(plan.actions, q);
      SparesAllOwn(tenants, i, plan.actions);
      RetiredTeam(repo, tenants, i, j, q, plan.actions);
      forall e <- retired.applications ensures EntryAccounted(repo, tenants, plan.actions, q, AppLeaf(e.name), e) {
        RetiredApplication(repo, tenants, i, j, q, plan.actions, e);
      }
      forall e <- retired.databases ensures EntryAccounted(repo, tenants, plan.actions, q, DatabaseLeaf(e.name), e) {
        RetiredDatabase(repo, tenants, i, j, q, plan.actions, e);
      }
      LeafByLeaf(repo, tenants, plan.actions, q, retired);
      InPlace(repo, tenants, i, retired, plan.actions, q);
    }
  }

  lemma RetiredTeam(repo: Repository, tenants: seq<Tenant>, i: nat, j: nat, q: Request, actions: seq<Action>)
    requires i < |tenants| && j < |tenants[i].services|
    requires var t, s := tenants[i], tenants[i].services[j];
             && (forall a <- actions :: a.Approve?) && (s.ownsTeam ==> Approve(TeamLeaf(t.name), q.id, q.p.force) in actions)
             && (!s.ownsTeam ==> forall a <- actions :: !a.leaf.TeamLeaf?)
    ensures TeamAccounted(repo, tenants, actions, q, RetireService(tenants[i], j, q.id))
  {
    hide RetireNamed, OwnedDatabase, TeamAccounted, HasLeaf;
    var t, s := tenants[i], tenants[i].services[j];
    if s.ownsTeam {
      HasOwn(tenants, i, TeamLeaf(t.name));
      TeamApproved(repo, tenants, actions, q, RetireService(t, j, q.id));
    } else {
      TeamKept(repo, tenants, actions, q, i, RetireService(t, j, q.id));
    }
  }

  lemma EntryMarked(repo: Repository, tenants: seq<Tenant>, actions: seq<Action>, q: Request, leaf: Leaf, e: Entry)
    requires e.lifecycle.Retiring? && e.request == q.id && Approve(leaf, q.id, q.p.force) in actions && HasLeaf(tenants, leaf)
    ensures EntryAccounted(repo, tenants, actions, q, leaf, e)
  {
    hide Kept, Written, HasLeaf;
  }

  lemma RetiredApplication(repo: Repository, tenants: seq<Tenant>, i: nat, j: nat, q: Request, actions: seq<Action>, e: Entry)
    requires Separate(tenants) && i < |tenants| && j < |tenants[i].services| && e in RetireService(tenants[i], j, q.id).applications
    requires var t, s := tenants[i], tenants[i].services[j];
             && (forall a <- actions :: a.Approve? && (a.leaf.AppLeaf? ==> a.leaf.name in s.components))
             && (forall x <- t.applications :: x.name in s.components ==> Approve(AppLeaf(x.name), q.id, q.p.force) in actions)
    ensures EntryAccounted(repo, tenants, actions, q, AppLeaf(e.name), e)
  {
    hide RetireNamed, OwnedDatabase, EntryAccounted, Separate, HasLeaf;
    var t, s := tenants[i], tenants[i].services[j];
    SeparateTenant(tenants, i);
    NamesRetire(t.applications, s.components, q.id);
    if e.name in s.components {
      var x :| x in t.applications && x.name == e.name;
      HasOwn(tenants, i, AppLeaf(e.name));
      EntryMarked(repo, tenants, actions, q, AppLeaf(e.name), e);
    } else {
      EntryKept(repo, tenants, actions, q, i, e, false);
    }
  }

  lemma RetiredDatabase(repo: Repository, tenants: seq<Tenant>, i: nat, j: nat, q: Request, actions: seq<Action>, e: Entry)
    requires Separate(tenants) && i < |tenants| && j < |tenants[i].services| && e in RetireService(tenants[i], j, q.id).databases
    requires var t, k := tenants[i], OwnedDatabase(tenants[i], tenants[i].services[j]);
             && (forall a <- actions :: a.Approve? && (a.leaf.DatabaseLeaf? ==> k >= 0 && a.leaf.name == t.databases[k].name))
             && (k >= 0 ==> Approve(DatabaseLeaf(t.databases[k].name), q.id, q.p.force) in actions)
    ensures EntryAccounted(repo, tenants, actions, q, DatabaseLeaf(e.name), e)
  {
    hide RetireNamed, OwnedDatabase, EntryAccounted, Separate, HasLeaf, DistinctBy;
    var t, k := tenants[i], OwnedDatabase(tenants[i], tenants[i].services[j]);
    SeparateTenant(tenants, i);
    if k >= 0 {
      ReplacedEntry(t.databases, k, Retired(t.databases[k], q.id));
      if e.name == t.databases[k].name {
        EntryListed(tenants, i, true, k);
        EntryMarked(repo, tenants, actions, q, DatabaseLeaf(e.name), e);
      } else {
        EntryKept(repo, tenants, actions, q, i, e, true);
      }
    } else {
      EntryKept(repo, tenants, actions, q, i, e, true);
    }
  }

  // ---------------------------------------------------------------- finalize

  lemma {:induction false} NamedDrops(entries: seq<Entry>, names: seq<string>, p: Parameters)
    requires (forall e <- entries :: e.path == AppLeaf(e.name)) && AllWrites(DropNamed(entries, names, p))
    ensures forall a <- DropNamed(entries, names, p) :: a.DropLeaf? && a.leaf.AppLeaf? && a.leaf.name in names && HasEntry(entries, a.leaf.name)
    ensures forall e <- entries :: e.name in names ==> DropLeaf(AppLeaf(e.name)) in DropNamed(entries, names, p)
    decreases |names|
  {
    hide Index;
    if names != [] {
      var init, c := names[..|names| - 1], names[|names| - 1];
      var j := Index(entries, EntryName, c);
      var all := DropNamed(entries, names, p);
      assert forall a <- DropNamed(entries, init, p) :: a in all;
      NamedDrops(entries, init, p);
      assert names == init + [c];
      forall e <- entries | e.name == c ensures j >= 0 {
        var k :| 0 <= k < |entries| && entries[k] == e;
        assert EntryName(entries[k]) == c;
      }
      if j >= 0 {
        assert entries[j] in entries && DropIfRetiring(entries[j], p) in all;
      }
    }
  }

  /** What a finalization that went through has dropped. */
  lemma FinalizationActions(repo: Repository, tenants: seq<Tenant>, i: nat, j: nat, q: Request)
    requires Derived(tenants) && i < |tenants| && j < |tenants[i].services| && Index(tenants[i].services, ServiceName, q.p.name) == j
    requires IsRetiringUnder(tenants[i].services[j].lifecycle, tenants[i].services[j].request, q.p)
    requires AllWrites(PlanServiceFinalize(tenants, i, q).actions)
    ensures var t, s, k, actions := tenants[i], tenants[i].services[j], OwnedDatabase(tenants[i], tenants[i].services[j]), PlanServiceFinalize(tenants, i, q).actions;
            && (forall a <- actions :: (a.DropLeaf? && TenantHas(t, a.leaf)) || a == DropSource(s))
            && (forall a <- actions :: a.DropLeaf? && a.leaf.AppLeaf? ==> a.leaf.name in s.components)
            && (forall a <- actions :: a.DropLeaf? && a.leaf.DatabaseLeaf? ==> k >= 0 && a.leaf.name == t.databases[k].name)
            && (!s.ownsTeam ==> forall a <- actions :: a.DropLeaf? ==> !a.leaf.TeamLeaf?)
            && (forall e <- t.applications :: e.name in s.components ==> DropLeaf(AppLeaf(e.name)) in actions)
            && (k >= 0 ==> DropLeaf(DatabaseLeaf(t.databases[k].name)) in actions) && DropSource(s) in actions
            && (s.ownsTeam ==> DropLeaf(TeamLeaf(t.name)) in actions)
  {
    hide Index, DropNamed, OwnedDatabase, FinalizeService, Without;
    var t, s, k := tenants[i], tenants[i].services[j], OwnedDatabase(tenants[i], tenants[i].services[j]);
    var actions := PlanServiceFinalize(tenants, i, q).actions;
    assert t in tenants;
    OwnPaths(tenants, t);
    var first := DropNamed(t.applications, s.components, q.p);
    var second := if k < 0 then [] else [DropIfRetiring(t.databases[k], q.p)];
    var last := if s.ownsTeam then [if IsRetiringUnder(t.lifecycle, t.request, q.p) then DropLeaf(t.path) else Fail(Conflict)] else [];
    assert actions == first + second + [DropSource(s)] + last;
    assert forall a <- first :: a in actions;
    NamedDrops(t.applications, s.components, q.p);
    if k >= 0 {
      assert t.databases[k] in t.databases && second[0] in actions;
    }
    assert [DropSource(s)][0] in actions;
    if s.ownsTeam {
      assert last[0] in actions;
    }
  }

  lemma ServiceFinalizeAccounted(repo: Repository, tenants: seq<Tenant>, i: nat, q: Request)
    requires Separate(tenants) && Derived(tenants) && i < |tenants| && Execute(repo, PlanServiceFinalize(tenants, i, q).actions).Ok?
    ensures Accounted(repo, tenants, PlanServiceFinalize(tenants, i, q), q)
  {
    hide Execute, Index, Separate, Derived, Accounted, Accounts, EntryAccounted, TeamAccounted, Spares, DropNamed, OwnedDatabase, TenantHas,
         Touched, Without, FinalizeService;
    Refusals(repo, tenants, Conflict, q);
    Refusals(repo, tenants, NotFound, q);
    var t, j := tenants[i], Index(tenants[i].services, ServiceName, q.p.name);
    if j >= 0 && IsRetiringUnder(t.services[j].lifecycle, t.services[j].request, q.p) {
      var s, plan := t.services[j], PlanServiceFinalize(tenants, i, q);
      SucceededWrites(repo, plan.actions);
      FinalizationActions(repo, tenants, i, j, q);
      assert Unanimous(plan.actions);
      SparesAllOwn(tenants, i, plan.actions);
      if s.ownsTeam {
        Removed(repo, tenants, i, plan.actions, q);
      } else {
        FinalizedIsAccounted(repo, tenants, i, j, q, plan.actions);
        InPlace(repo, tenants, i, FinalizeService(t, s), plan.actions, q);
      }
    }
  }

  lemma FinalizedIsAccounted(repo: Repository, tenants: seq<Tenant>, i: nat, j: nat, q: Request, actions: seq<Action>)
    requires i < |tenants| && j < |tenants[i].services|
    requires var t, s, k := tenants[i], tenants[i].services[j], OwnedDatabase(tenants[i], tenants[i].services[j]);
             && (forall a <- actions :: a.DropLeaf? || a == DropSource(s))
             && (forall a <- actions :: a.DropLeaf? && a.leaf.AppLeaf? ==> a.leaf.name in s.components)
             && (forall a <- actions :: a.DropLeaf? && a.leaf.DatabaseLeaf? ==> k >= 0 && a.leaf.name == t.databases[k].name)
             && (forall a <- actions :: a.DropLeaf? ==> !a.leaf.TeamLeaf?)
    ensures Accounts(repo, tenants, actions, q, FinalizeService(tenants[i], tenants[i].services[j]))
  {
    hide EntryAccounted, TeamAccounted, Without, OwnedDatabase;
    var t, s, k := tenants[i], tenants[i].services[j], OwnedDatabase(tenants[i], tenants[i].services[j]);
    var after := FinalizeService(t, s);
    TeamKept(repo, tenants, actions, q, i, after);
    forall e <- after.applications ensures EntryAccounted(repo, tenants, actions, q, AppLeaf(e.name), e) {
      EntryKept(repo, tenants, actions, q, i, e, false);
    }
    OwnedIsReferenced(t, s);
    forall e <- after.databases ensures EntryAccounted(repo, tenants, actions, q, DatabaseLeaf(e.name), e) {
      EntryKept(repo, tenants, actions, q, i, e, true);
    }
    LeafByLeaf(repo, tenants, actions, q, after);
  }

  lemma OwnedIsReferenced(t: Tenant, s: Service)
    ensures OwnedDatabase(t, s) >= 0 ==> s.ownsDatabase && t.databases[OwnedDatabase(t, s)].name == s.databaseRef
  {
    hide Index;
  }
}
