/** When an operation leaves a valid catalog. */
module CatalogPreserved {
  import opened Catalog
  import opened CatalogValidation
  import opened CatalogFacts
  import opened ChangePlan
  import opened OverlayFacts
  import opened RenderSafety
  import opened RenderAccounting
  import opened ServiceAccounting

  // ---------------------------------------------------------------- validity without the directories

  predicate DatabaseShape(d: Entry) { ValidName(d.name, 63) && LifecycleOk(d.lifecycle, d.request) && d.path == DatabaseLeaf(d.name) }

  predicate ApplicationShape(databases: seq<Entry>, a: Entry) {
    && ValidName(a.name, 63) && LifecycleOk(a.lifecycle, a.request) && a.path == AppLeaf(a.name)
    && (a.databaseRef != "" ==> HasEntry(databases, a.databaseRef))
  }

  predicate ServiceShape(databases: seq<Entry>, s: Service) {
    && ValidName(s.name, 48) && s.path == s.name && !s.template.NoTemplate? && s.version.Version?
    && s.components == TemplateComponents(s.name, s.template) && ServiceLifecycleOk(s.lifecycle, s.request)
    && (s.databaseRef != "" ==> HasEntry(databases, s.databaseRef))
  }

  predicate TeamShape(t: Tenant) { ValidName(t.name, 58) && OwnersOk(t.owners) && LifecycleOk(t.lifecycle, t.request) && t.path == TeamLeaf(t.name) }

  predicate Shape(t: Tenant) {
    && TeamShape(t) && (forall d <- t.databases :: DatabaseShape(d))
    && (forall a <- t.applications :: ApplicationShape(t.databases, a)) && forall s <- t.services :: ServiceShape(t.databases, s)
  }

  lemma ValidHasShape(paths: set<Path>, tenants: seq<Tenant>)
    requires Valid(paths, tenants)
    ensures UniqueNames(AllNames(tenants)) && Derived(tenants) && forall t <- tenants :: Shape(t)
  {
    hide UniqueNames, AllNames, ValidName, LifecycleOk, OwnersOk, HasEntry, TemplateComponents;
  }

  // ---------------------------------------------------------------- sources

  predicate HasSource(tenants: seq<Tenant>, path: string) { exists t <- tenants :: exists s <- t.services :: s.path == path }

  /** A service's source is untouched, or written. */
  predicate SourceKept(tenants: seq<Tenant>, actions: seq<Action>, s: Service) {
    || (HasSource(tenants, s.path) && !TouchedSource(actions, s.path))
    || WriteSource(s) in actions || WriteVersion(s) in actions
  }

  ghost predicate Sources(tenants: seq<Tenant>, plan: Plan) { forall t <- plan.tenants :: forall s <- t.services :: SourceKept(tenants, plan.actions, s) }

  /** What is left to show of an operation besides the accounting of leaves. */
  ghost predicate Sound(tenants: seq<Tenant>, plan: Plan) {
    UniqueNames(AllNames(plan.tenants)) && (forall t <- plan.tenants :: Shape(t)) && Sources(tenants, plan)
  }

  lemma ManifestMakesDirectory(repo: Repository, leaf: Leaf)
    requires Manifest(leaf) in repo
    ensures LeafExists(repo.Keys, leaf)
  {
    assert Manifest(leaf) in repo.Keys && InLeaf(Manifest(leaf), leaf);
  }

  /** A sound operation that accounts for its leaves leaves a valid catalog. */
  lemma SoundIsValid(repo: Repository, tenants: seq<Tenant>, plan: Plan, q: Request)
    requires Valid(repo.Keys, tenants) && Consistent(repo, tenants) && Execute(repo, plan.actions).Ok?
    requires Accounted(repo, tenants, plan, q) && Sound(tenants, plan)
    ensures Valid(FilesAfter(repo, plan).Keys, plan.tenants) && Consistent(FilesAfter(repo, plan), plan.tenants)
  {
    hide Execute, FilesAfter, UniqueNames, AllNames, Accounted, Consistent, Shape, TenantOk, Sources;
    StaysConsistent(repo, tenants, plan, q);
    AccountedIsUnanimous(repo, tenants, plan, q);
    forall t <- plan.tenants ensures TenantOk(FilesAfter(repo, plan).Keys, t) {
      forall s <- t.services ensures SourceExists(FilesAfter(repo, plan).Keys, s.path) {
        SourcesOf(tenants, plan, t, s);
        SourceAfter(repo, tenants, plan, s);
      }
      DirectoriesExist(FilesAfter(repo, plan), plan.tenants, t);
    }
  }

  lemma AccountedIsUnanimous(repo: Repository, tenants: seq<Tenant>, plan: Plan, q: Request)
    requires Accounted(repo, tenants, plan, q)
    ensures Unanimous(plan.actions)
  {
    hide Accounts, Unanimous;
  }

  lemma SourcesOf(tenants: seq<Tenant>, plan: Plan, t: Tenant, s: Service)
    requires Sources(tenants, plan) && t in plan.tenants && s in t.services
    ensures SourceKept(tenants, plan.actions, s)
  {
    hide SourceKept;
  }

  lemma SourceAfter(repo: Repository, tenants: seq<Tenant>, plan: Plan, s: Service)
    requires Valid(repo.Keys, tenants) && Execute(repo, plan.actions).Ok? && Unanimous(plan.actions) && SourceKept(tenants, plan.actions, s)
    ensures SourceExists(FilesAfter(repo, plan).Keys, s.path)
  {
    hide Execute, FilesAfter, Unanimous, UniqueNames, AllNames, TouchedSource, SourceExists, ValidName, DatabaseOk, ApplicationOk, TeamOk;
    if WriteSource(s) in plan.actions {
      WrittenSourceAfter(repo, plan, WriteSource(s), s);
    } else if WriteVersion(s) in plan.actions {
      WrittenSourceAfter(repo, plan, WriteVersion(s), s);
    } else {
      KeptSourceAfter(repo, plan, s.path);
    }
  }

  lemma DirectoriesExist(repo: Repository, tenants: seq<Tenant>, t: Tenant)
    requires Consistent(repo, tenants) && t in tenants && Shape(t) && forall s <- t.services :: SourceExists(repo.Keys, s.path)
    ensures TenantOk(repo.Keys, t)
  {
    hide Consistent, ValidName, LifecycleOk, OwnersOk, HasEntry, TemplateComponents, LeafExists, SourceExists, ServiceLifecycleOk;
    ListedExists(repo, tenants, t, Listed(t.path, t.lifecycle, t.request));
    forall d <- t.databases ensures LeafExists(repo.Keys, d.path) {
      ListedExists(repo, tenants, t, Listed(d.path, d.lifecycle, d.request));
    }
    forall a <- t.applications ensures LeafExists(repo.Keys, a.path) {
      ListedExists(repo, tenants, t, Listed(a.path, a.lifecycle, a.request));
    }
  }

  lemma ListedExists(repo: Repository, tenants: seq<Tenant>, t: Tenant, l: Listed)
    requires Consistent(repo, tenants) && t in tenants && TenantLists(t, l)
    ensures LeafExists(repo.Keys, l.leaf)
  {
    hide TenantLists, Stored, LeafExists;
    assert CatalogLists(tenants, l);
    ManifestMakesDirectory(repo, l.leaf);
  }

  // ---------------------------------------------------------------- names

  lemma {:induction false} SameNames<T>(a: seq<T>, b: seq<T>, key: T -> string)
    requires |a| == |b| && forall i :: 0 <= i < |a| ==> key(a[i]) == key(b[i])
    ensures NamesOf(a, key) == NamesOf(b, key)
  {
    if a != [] {
      forall i | 0 <= i < |a[1..]| ensures key(a[1..][i]) == key(b[1..][i]) {
        assert a[1..][i] == a[i + 1] && b[1..][i] == b[i + 1];
      }
      SameNames(a[1..], b[1..], key);
    }
  }

  lemma FewerNames<T(!new)>(items: seq<T>, key: T -> string, names: seq<string>)
    ensures NamesOf(Without(items, key, names), key) <= NamesOf(items, key)
  {
    hide Without, NamesOf;
    forall x ensures NamesOf(Without(items, key, names), key)[x] <= NamesOf(items, key)[x] {
      KeptNames(items, key, names, x);
    }
  }

  lemma MoreNames<T>(items: seq<T>, item: T, key: T -> string)
    ensures NamesOf(SortBy(items + [item], key), key) == NamesOf(items, key) + multiset{key(item)}
  {
    hide SortBy, NamesOf;
    SortedNames(items + [item], key);
    NamesAppend(items, [item], key);
    NamesOne(item, key);
  }

  lemma NamesShrink(tenants: seq<Tenant>, i: nat, t: Tenant)
    requires i < |tenants| && UniqueNames(AllNames(tenants)) && Contains(TenantNames(tenants[i]), TenantNames(t))
    ensures UniqueNames(AllNames(tenants[i := t]))
  {
    hide UniqueNames, AllNames, TenantNames;
    var others := Exchange(tenants, i, t);
    SmallerIsUnique(Join(others, TenantNames(t)), AllNames(tenants));
  }

  /** The tenant gained some names that were not in use. */
  lemma NamesGrow(tenants: seq<Tenant>, i: nat, t: Tenant, more: Names)
    requires i < |tenants| && UniqueNames(Join(AllNames(tenants), more)) && Contains(Join(TenantNames(tenants[i]), more), TenantNames(t))
    ensures UniqueNames(AllNames(tenants[i := t]))
  {
    hide UniqueNames, AllNames, TenantNames;
    var others := Exchange(tenants, i, t);
    SmallerIsUnique(Join(others, TenantNames(t)), Join(AllNames(tenants), more));
  }

  // ---------------------------------------------------------------- one tenant in place

  lemma InPlaceIsSound(tenants: seq<Tenant>, i: nat, t: Tenant, actions: seq<Action>)
    requires i < |tenants| && (forall s <- tenants :: Shape(s)) && UniqueNames(AllNames(tenants[i := t])) && Shape(t)
    requires forall a <- actions :: ActionSource(a).None?
    requires forall s <- t.services :: exists s0 <- tenants[i].services :: s0.path == s.path
    ensures Sound(tenants, Plan(tenants[i := t], actions))
  {
    hide Shape, UniqueNames, AllNames;
    var after := tenants[i := t];
    forall s <- after ensures Shape(s) {
      var k :| 0 <= k < |after| && after[k] == s;
    }
    forall u <- after, s <- u.services ensures SourceKept(tenants, actions, s) {
      var k :| 0 <= k < |after| && after[k] == u;
      assert tenants[k] in tenants;
      if k == i {
        var s0 :| s0 in tenants[i].services && s0.path == s.path;
      }
    }
  }

  lemma SameServices(tenants: seq<Tenant>, i: nat, t: Tenant)
    requires i < |tenants| && t.services == tenants[i].services
    ensures forall s <- t.services :: exists s0 <- tenants[i].services :: s0.path == s.path
  {
  }

  // ---------------------------------------------------------------- applications and databases

  predicate RefsKept(t: Tenant, databases: seq<Entry>) {
    && (forall a <- t.applications :: a.databaseRef != "" ==> HasEntry(databases, a.databaseRef))
    && (forall s <- t.services :: s.databaseRef != "" ==> HasEntry(databases, s.databaseRef))
  }

  /** Nothing in the tenant refers to the database. */
  predicate Unreferenced(t: Tenant, name: string) {
    (forall a <- t.applications :: a.databaseRef != name) && forall s <- t.services :: s.databaseRef != name
  }

  lemma ApplicationsShape(t: Tenant, applications: seq<Entry>)
    requires Shape(t) && forall a <- applications :: ApplicationShape(t.databases, a)
    ensures Shape(t.(applications := applications))
  {
    hide ValidName, OwnersOk, LifecycleOk, DatabaseShape, ApplicationShape, ServiceShape;
  }

  lemma DatabasesShape(t: Tenant, databases: seq<Entry>)
    requires Shape(t) && (forall d <- databases :: DatabaseShape(d)) && RefsKept(t, databases)
    ensures Shape(t.(databases := databases))
  {
    hide OwnersOk, DatabaseShape, HasEntry, ValidName, LifecycleOk, ServiceLifecycleOk, TemplateComponents;
  }

  lemma RefsOfShape(t: Tenant, databases: seq<Entry>)
    requires Shape(t) && forall d <- t.databases :: HasEntry(databases, d.name)
    ensures RefsKept(t, databases)
  {
    hide TeamShape, DatabaseShape, ValidName, LifecycleOk, ServiceLifecycleOk, TemplateComponents;
  }

  lemma RefsWithout(t: Tenant, name: string)
    requires Shape(t) && Unreferenced(t, name)
    ensures RefsKept(t, Without(t.databases, EntryName, [name]))
  {
    hide TeamShape, DatabaseShape, ValidName, LifecycleOk, ServiceLifecycleOk, TemplateComponents, Without;
    var rest := Without(t.databases, EntryName, [name]);
    forall ref | ref != name && HasEntry(t.databases, ref) ensures HasEntry(rest, ref) {
      var d :| d in t.databases && d.name == ref;
      assert d in rest;
    }
  }

  /** Application or database entries change under names that stay unique. */
  lemma EntriesSound(tenants: seq<Tenant>, i: nat, databases: bool, entries: seq<Entry>, actions: seq<Action>)
    requires i < |tenants| && (forall s <- tenants :: Shape(s)) && UniqueNames(AllNames(tenants[i := WithEntries(tenants[i], databases, entries)]))
    requires Shape(WithEntries(tenants[i], databases, entries)) && forall a <- actions :: ActionSource(a).None?
    ensures Sound(tenants, Plan(tenants[i := WithEntries(tenants[i], databases, entries)], actions))
  {
    hide Shape, UniqueNames, AllNames, Sound;
    SameServices(tenants, i, WithEntries(tenants[i], databases, entries));
    InPlaceIsSound(tenants, i, WithEntries(tenants[i], databases, entries), actions);
  }

  function MoreName(databases: bool, name: string): Names {
    if databases then NO_NAMES.(databases := multiset{name}) else NO_NAMES.(applications := multiset{name})
  }

  lemma AddedNames(t: Tenant, databases: bool, e: Entry)
    ensures var after := WithEntries(t, databases, AddEntry(EntriesOf(t, databases), e));
            TenantNames(after) == Join(TenantNames(t), MoreName(databases, e.name))
  {
    hide SortBy, NamesOf;
    MoreNames(EntriesOf(t, databases), e, EntryName);
  }

  lemma FreshNameIsUnique(tenants: seq<Tenant>, databases: bool, name: string)
    requires UniqueNames(AllNames(tenants)) && !HasLeaf(tenants, LeafOf(name, databases))
    ensures UniqueNames(Join(AllNames(tenants), MoreName(databases, name)))
  {
    hide HasLeaf, AllNames, Distinct;
    NamesInUse(tenants, LeafOf(name, databases));
    var n := AllNames(tenants);
    assert n.teams + multiset{} == n.teams && n.databases + multiset{} == n.databases && n.applications + multiset{} == n.applications && n.services + multiset{} == n.services;
    if databases {
      OneMoreName(n.databases, name);
    } else {
      OneMoreName(n.applications, name);
    }
  }

  lemma {:induction false} NamesInUse(tenants: seq<Tenant>, leaf: Leaf)
    requires !leaf.TeamLeaf?
    ensures HasLeaf(tenants, leaf) <==> leaf.name in (if leaf.AppLeaf? then AllNames(tenants).applications else AllNames(tenants).databases)
  {
    if tenants != [] {
      NamesInUse(tenants[1..], leaf);
      hide TenantHas, HasLeaf, TenantNames;
      TenantNamesInUse(tenants[0], leaf);
      HasLeafFirst(tenants, leaf);
    } else {
      assert !HasLeaf(tenants, leaf);
    }
  }

  lemma TenantNamesInUse(t: Tenant, leaf: Leaf)
    requires !leaf.TeamLeaf?
    ensures TenantHas(t, leaf) <==> leaf.name in (if leaf.AppLeaf? then TenantNames(t).applications else TenantNames(t).databases)
  {
    hide NamesOf;
    UsedBySome(t.applications, EntryName, leaf.name);
    UsedBySome(t.databases, EntryName, leaf.name);
  }

  lemma HasLeafFirst(tenants: seq<Tenant>, leaf: Leaf)
    requires tenants != []
    ensures HasLeaf(tenants, leaf) <==> TenantHas(tenants[0], leaf) || HasLeaf(tenants[1..], leaf)
  {
    hide TenantHas;
    assert forall t :: t in tenants <==> t == tenants[0] || t in tenants[1..];
  }

  /** A new application or database, with a name nobody uses. */
  lemma CreateSound(tenants: seq<Tenant>, i: nat, databases: bool, e: Entry, actions: seq<Action>)
    requires i < |tenants| && (forall s <- tenants :: Shape(s)) && UniqueNames(AllNames(tenants)) && !HasLeaf(tenants, LeafOf(e.name, databases))
    requires if databases then DatabaseShape(e) else ApplicationShape(tenants[i].databases, e)
    requires forall a <- actions :: ActionSource(a).None?
    ensures Sound(tenants, Plan(tenants[i := WithEntries(tenants[i], databases, AddEntry(EntriesOf(tenants[i], databases), e))], actions))
  {
    hide UniqueNames, AllNames, HasLeaf, Sound, AddEntry, DatabaseShape, ApplicationShape, ServiceShape, TeamShape, TenantNames, Contains, HasEntry;
    var t := tenants[i];
    var entries := AddEntry(EntriesOf(t, databases), e);
    FreshNameIsUnique(tenants, databases, e.name);
    AddedNames(t, databases, e);
    SameContains(TenantNames(WithEntries(t, databases, entries)));
    NamesGrow(tenants, i, WithEntries(t, databases, entries), MoreName(databases, e.name));
    AddedEntry(EntriesOf(t, databases), e);
    if databases {
      StillThere(t.databases, e);
      RefsOfShape(t, entries);
      DatabasesShape(t, entries);
    } else {
      ApplicationsShape(t, entries);
    }
    EntriesSound(tenants, i, databases, entries, actions);
  }

  lemma SameContains(n: Names)
    ensures Contains(n, n)
  {
  }

  lemma StillThere(entries: seq<Entry>, e: Entry)
    ensures (forall d <- entries :: HasEntry(AddEntry(entries, e), d.name)) && HasEntry(AddEntry(entries, e), e.name)
  {
    hide SortBy;
    forall d <- entries + [e] ensures HasEntry(AddEntry(entries, e), d.name) {
      SortedMembers(entries + [e], EntryName, d);
    }
    assert (entries + [e])[|entries|] == e;
    assert forall d <- entries :: d in entries + [e];
  }

  /** An entry is rewritten or retires under its own name. */
  lemma ReplaceSound(tenants: seq<Tenant>, i: nat, databases: bool, j: nat, e: Entry, actions: seq<Action>)
    requires i < |tenants| && (forall s <- tenants :: Shape(s)) && UniqueNames(AllNames(tenants))
    requires j < |EntriesOf(tenants[i], databases)| && e.name == EntriesOf(tenants[i], databases)[j].name
    requires if databases then DatabaseShape(e) else ApplicationShape(tenants[i].databases, e)
    requires forall a <- actions :: ActionSource(a).None?
    ensures Sound(tenants, Plan(tenants[i := WithEntries(tenants[i], databases, EntriesOf(tenants[i], databases)[j := e])], actions))
  {
    hide UniqueNames, AllNames, Sound, DatabaseShape, ApplicationShape, ServiceShape, TeamShape;
    var t := tenants[i];
    var entries := EntriesOf(t, databases)[j := e];
    SameNames(EntriesOf(t, databases), entries, EntryName);
    NamesShrink(tenants, i, WithEntries(t, databases, entries));
    assert t in tenants;
    if databases {
      forall d <- t.databases ensures HasEntry(entries, d.name) {
        var k :| 0 <= k < |t.databases| && t.databases[k] == d;
        assert entries[k].name == d.name && entries[k] in entries;
      }
      RefsOfShape(t, entries);
      DatabasesShape(t, entries);
    } else {
      ApplicationsShape(t, entries);
    }
    EntriesSound(tenants, i, databases, entries, actions);
  }

  lemma RemoveApplicationSound(tenants: seq<Tenant>, i: nat, name: string, actions: seq<Action>)
    requires i < |tenants| && (forall s <- tenants :: Shape(s)) && UniqueNames(AllNames(tenants)) && forall a <- actions :: ActionSource(a).None?
    ensures Sound(tenants, Plan(tenants[i := tenants[i].(applications := Without(tenants[i].applications, EntryName, [name]))], actions))
  {
    hide UniqueNames, AllNames, Sound, DatabaseShape, ApplicationShape, ServiceShape, TeamShape, Without, NamesOf;
    var t := tenants[i];
    var entries := Without(t.applications, EntryName, [name]);
    FewerNames(t.applications, EntryName, [name]);
    NamesShrink(tenants, i, t.(applications := entries));
    ApplicationsShape(t, entries);
    EntriesSound(tenants, i, false, entries, actions);
  }

  lemma RemoveDatabaseSound(tenants: seq<Tenant>, i: nat, name: string, actions: seq<Action>)
    requires i < |tenants| && (forall s <- tenants :: Shape(s)) && UniqueNames(AllNames(tenants)) && forall a <- actions :: ActionSource(a).None?
    requires Unreferenced(tenants[i], name)
    ensures Sound(tenants, Plan(tenants[i := tenants[i].(databases := Without(tenants[i].databases, EntryName, [name]))], actions))
  {
    hide UniqueNames, AllNames, Sound, DatabaseShape, ApplicationShape, ServiceShape, TeamShape, Without, NamesOf, RefsKept, Unreferenced;
    var t := tenants[i];
    var entries := Without(t.databases, EntryName, [name]);
    FewerNames(t.databases, EntryName, [name]);
    NamesShrink(tenants, i, t.(databases := entries));
    RefsWithout(t, name);
    DatabasesShape(t, entries);
    EntriesSound(tenants, i, true, entries, actions);
  }
}
