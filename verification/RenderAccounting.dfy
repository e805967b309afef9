/** Every operation accounts for every leaf of the catalog it leaves. */
module RenderAccounting {
  import opened Wrappers
  import opened Catalog
  import opened CatalogFacts
  import opened ChangePlan
  import opened OverlayFacts
  import opened RenderSafety

  function LeafOf(name: string, databases: bool): Leaf { if databases then DatabaseLeaf(name) else AppLeaf(name) }

  /** No action is about a leaf of another tenant. */
  ghost predicate Spares(tenants: seq<Tenant>, i: int, actions: seq<Action>) {
    forall k, a :: 0 <= k < |tenants| && k != i && a in actions && ActionLeaf(a).Some? ==> !TenantHas(tenants[k], ActionLeaf(a).value)
  }

  lemma OwnLeaf(tenants: seq<Tenant>, i: nat, leaf: Leaf)
    requires Separate(tenants) && i < |tenants| && TenantHas(tenants[i], leaf)
    ensures forall k :: 0 <= k < |tenants| && k != i ==> !TenantHas(tenants[k], leaf)
  {
    hide TenantHas, DistinctBy, TenantHasService;
  }

  ghost predicate EntryAccounted(repo: Repository, tenants: seq<Tenant>, actions: seq<Action>, q: Request, leaf: Leaf, e: Entry) {
    var l := Listed(leaf, e.lifecycle, e.request);
    Kept(tenants, actions, l) || Written(repo, tenants, actions, l) || Approved(tenants, actions, q, l)
  }

  ghost predicate TeamAccounted(repo: Repository, tenants: seq<Tenant>, actions: seq<Action>, q: Request, t: Tenant) {
    var l := Listed(TeamLeaf(t.name), t.lifecycle, t.request);
    Kept(tenants, actions, l) || Written(repo, tenants, actions, l) || Approved(tenants, actions, q, l)
  }

  /** A tenant is accounted for leaf by leaf. */
  lemma LeafByLeaf(repo: Repository, tenants: seq<Tenant>, actions: seq<Action>, q: Request, t: Tenant)
    requires TeamAccounted(repo, tenants, actions, q, t)
    requires forall e <- t.applications :: EntryAccounted(repo, tenants, actions, q, AppLeaf(e.name), e)
    requires forall e <- t.databases :: EntryAccounted(repo, tenants, actions, q, DatabaseLeaf(e.name), e)
    ensures Accounts(repo, tenants, actions, q, t)
  {
    hide Kept, Written, Approved;
    forall l | TenantLists(t, l) ensures Kept(tenants, actions, l) || Written(repo, tenants, actions, l) || Approved(tenants, actions, q, l) {
      match l.leaf {
        case TeamLeaf(_) => assert l == Listed(TeamLeaf(t.name), t.lifecycle, t.request);
        case AppLeaf(name) =>
          var e :| e in t.applications && e.name == name && e.lifecycle == l.lifecycle && e.request == l.request;
          assert l == Listed(AppLeaf(e.name), e.lifecycle, e.request);
        case DatabaseLeaf(name) =>
          var e :| e in t.databases && e.name == name && e.lifecycle == l.lifecycle && e.request == l.request;
          assert l == Listed(DatabaseLeaf(e.name), e.lifecycle, e.request);
      }
    }
  }

  lemma EntryKept(repo: Repository, tenants: seq<Tenant>, actions: seq<Action>, q: Request, i: nat, e: Entry, databases: bool)
    requires i < |tenants| && e in EntriesOf(tenants[i], databases) && !Touched(actions, LeafOf(e.name, databases))
    ensures EntryAccounted(repo, tenants, actions, q, LeafOf(e.name, databases), e)
  {
    hide Touched, Written, Approved;
    assert tenants[i] in tenants && TenantLists(tenants[i], Listed(LeafOf(e.name, databases), e.lifecycle, e.request));
  }

  lemma TeamKept(repo: Repository, tenants: seq<Tenant>, actions: seq<Action>, q: Request, i: nat, t: Tenant)
    requires i < |tenants| && !Touched(actions, TeamLeaf(t.name))
    requires t.name == tenants[i].name && t.lifecycle == tenants[i].lifecycle && t.request == tenants[i].request
    ensures TeamAccounted(repo, tenants, actions, q, t)
  {
    hide Touched, Written, Approved;
    assert tenants[i] in tenants && TenantLists(tenants[i], Listed(TeamLeaf(t.name), t.lifecycle, t.request));
  }

  /** A tenant none of whose leaves is touched. */
  lemma SparedTenant(repo: Repository, tenants: seq<Tenant>, actions: seq<Action>, q: Request, k: nat)
    requires k < |tenants| && forall a <- actions :: ActionLeaf(a).Some? ==> !TenantHas(tenants[k], ActionLeaf(a).value)
    ensures Accounts(repo, tenants, actions, q, tenants[k])
  {
    hide EntryAccounted, TeamAccounted;
    var t := tenants[k];
    TeamKept(repo, tenants, actions, q, k, t);
    forall e <- t.applications ensures EntryAccounted(repo, tenants, actions, q, AppLeaf(e.name), e) {
      EntryKept(repo, tenants, actions, q, k, e, false);
    }
    forall e <- t.databases ensures EntryAccounted(repo, tenants, actions, q, DatabaseLeaf(e.name), e) {
      EntryKept(repo, tenants, actions, q, k, e, true);
    }
    LeafByLeaf(repo, tenants, actions, q, t);
  }

  /** One tenant changes, the others are spared. */
  lemma InPlace(repo: Repository, tenants: seq<Tenant>, i: nat, t: Tenant, actions: seq<Action>, q: Request)
    requires i < |tenants| && Unanimous(actions) && Spares(tenants, i, actions) && Accounts(repo, tenants, actions, q, t)
    ensures Accounted(repo, tenants, Plan(tenants[i := t], actions), q)
  {
    hide Accounts, Unanimous;
    forall s <- tenants[i := t] ensures Accounts(repo, tenants, actions, q, s) {
      var k :| 0 <= k < |tenants| && tenants[i := t][k] == s;
      if k != i {
        SparedTenant(repo, tenants, actions, q, k);
      }
    }
  }

  /** One tenant goes, the others are spared. */
  lemma Removed(repo: Repository, tenants: seq<Tenant>, i: nat, actions: seq<Action>, q: Request)
    requires i < |tenants| && Unanimous(actions) && Spares(tenants, i, actions)
    ensures Accounted(repo, tenants, Plan(Without(tenants, TenantName, [tenants[i].name]), actions), q)
  {
    hide Accounts, Unanimous, Without;
    forall s <- Without(tenants, TenantName, [tenants[i].name]) ensures Accounts(repo, tenants, actions, q, s) {
      var k :| 0 <= k < |tenants| && tenants[k] == s;
      assert k != i;
      SparedTenant(repo, tenants, actions, q, k);
    }
  }

  /** One tenant is new, the others are spared. */
  lemma Added(repo: Repository, tenants: seq<Tenant>, after: seq<Tenant>, t: Tenant, actions: seq<Action>, q: Request)
    requires Unanimous(actions) && Spares(tenants, -1, actions) && Accounts(repo, tenants, actions, q, t)
    requires forall s <- after :: s == t || s in tenants
    ensures Accounted(repo, tenants, Plan(after, actions), q)
  {
    hide Accounts, Unanimous;
    forall s <- after ensures Accounts(repo, tenants, actions, q, s) {
      if s != t {
        var k :| 0 <= k < |tenants| && tenants[k] == s;
        SparedTenant(repo, tenants, actions, q, k);
      }
    }
  }

  lemma Refusals(repo: Repository, tenants: seq<Tenant>, code: ExitCode, q: Request)
    ensures Execute(repo, Refuse(tenants, code).actions).Err?
  {
    assert [Fail(code)][..0] == [];
  }

  // ---------------------------------------------------------------- one application or one database

  /** The entry an action leaves behind. */
  ghost predicate Settles(repo: Repository, tenants: seq<Tenant>, action: Action, q: Request, leaf: Leaf, e: Entry) {
    if action.WriteLeaf? then e.lifecycle.Active? && WrittenOver(repo, tenants, leaf, action.manifest)
    else action == Approve(leaf, q.id, q.p.force) && e.lifecycle.Retiring? && e.request == q.id && HasLeaf(tenants, leaf)
  }

  lemma OneEntryChanges(repo: Repository, tenants: seq<Tenant>, i: nat, databases: bool, entries: seq<Entry>, action: Action, name: string, q: Request)
    requires i < |tenants| && ActionLeaf(action) == Some(LeafOf(name, databases)) && Spares(tenants, i, [action])
    requires forall e <- entries ::
               (e in EntriesOf(tenants[i], databases) && e.name != name)
               || (e.name == name && Settles(repo, tenants, action, q, LeafOf(name, databases), e))
    ensures Accounted(repo, tenants, Plan(tenants[i := WithEntries(tenants[i], databases, entries)], [action]), q)
  {
    hide EntryAccounted, TeamAccounted, Accounts, Spares, WrittenOver;
    var t, actions := WithEntries(tenants[i], databases, entries), [action];
    TeamKept(repo, tenants, actions, q, i, t);
    forall e <- t.applications ensures EntryAccounted(repo, tenants, actions, q, AppLeaf(e.name), e) {
      EntryChanges(repo, tenants, i, databases, false, action, name, q, e);
    }
    forall e <- t.databases ensures EntryAccounted(repo, tenants, actions, q, DatabaseLeaf(e.name), e) {
      EntryChanges(repo, tenants, i, databases, true, action, name, q, e);
    }
    LeafByLeaf(repo, tenants, actions, q, t);
    InPlace(repo, tenants, i, t, actions, q);
  }

  lemma EntryChanges(repo: Repository, tenants: seq<Tenant>, i: nat, databases: bool, kind: bool, action: Action, name: string, q: Request, e: Entry)
    requires i < |tenants| && ActionLeaf(action) == Some(LeafOf(name, databases))
    requires if kind != databases then e in EntriesOf(tenants[i], kind)
             else (e in EntriesOf(tenants[i], kind) && e.name != name) || (e.name == name && Settles(repo, tenants, action, q, LeafOf(name, kind), e))
    ensures EntryAccounted(repo, tenants, [action], q, LeafOf(e.name, kind), e)
  {
    hide WrittenOver;
    if kind != databases || e.name != name {
      EntryKept(repo, tenants, [action], q, i, e, kind);
    }
  }

  // ---------------------------------------------------------------- writes and marks

  lemma FreshWrite(repo: Repository, tenants: seq<Tenant>, leaf: Leaf, file: File)
    requires !HasLeaf(tenants, leaf) && FreshFile(file) && (leaf.DatabaseLeaf? ==> Stored(file))
    ensures WrittenOver(repo, tenants, leaf, file)
  {
    hide FreshFile, Stored, Grows;
    forall l | CatalogLists(tenants, l) ensures l.leaf != leaf {
      var t :| t in tenants && TenantLists(t, l);
      ListsIsHas(t, l);
      assert HasLeaf(tenants, l.leaf);
    }
  }

  lemma Rewrite(repo: Repository, tenants: seq<Tenant>, was: Listed, file: File)
    requires Separate(tenants) && CatalogLists(tenants, was) && was.lifecycle.Active? && FreshFile(file)
    requires was.leaf.DatabaseLeaf? ==> Stored(file) && (Manifest(was.leaf) in repo ==> Grows(repo[Manifest(was.leaf)], file))
    ensures WrittenOver(repo, tenants, was.leaf, file)
  {
    hide FreshFile, Stored, Grows, Separate;
    forall l | CatalogLists(tenants, l) && l.leaf == was.leaf ensures l == was {
      ListedOnce(tenants, l, was);
    }
  }

  lemma SparesFresh(tenants: seq<Tenant>, i: int, a: Action)
    requires ActionLeaf(a).Some? ==> !HasLeaf(tenants, ActionLeaf(a).value)
    ensures Spares(tenants, i, [a])
  {
    hide TenantHas;
  }

  lemma SparesOwn(tenants: seq<Tenant>, i: nat, a: Action)
    requires Separate(tenants) && i < |tenants| && (ActionLeaf(a).Some? ==> TenantHas(tenants[i], ActionLeaf(a).value))
    ensures Spares(tenants, i, [a])
  {
    hide TenantHas, Separate;
    if ActionLeaf(a).Some? {
      OwnLeaf(tenants, i, ActionLeaf(a).value);
    }
  }

  lemma EntryListed(tenants: seq<Tenant>, i: nat, databases: bool, j: nat)
    requires i < |tenants| && j < |EntriesOf(tenants[i], databases)|
    ensures var e := EntriesOf(tenants[i], databases)[j];
            && CatalogLists(tenants, Listed(LeafOf(e.name, databases), e.lifecycle, e.request))
            && TenantHas(tenants[i], LeafOf(e.name, databases)) && HasLeaf(tenants, LeafOf(e.name, databases))
  {
    var e := EntriesOf(tenants[i], databases)[j];
    assert e in EntriesOf(tenants[i], databases) && tenants[i] in tenants;
    assert TenantLists(tenants[i], Listed(LeafOf(e.name, databases), e.lifecycle, e.request));
  }

  /** An entry is replaced by one of its name; the others keep theirs. */
  lemma ReplacedEntry(entries: seq<Entry>, j: nat, e: Entry)
    requires DistinctBy(entries, EntryName) && j < |entries| && e.name == entries[j].name
    ensures forall x <- entries[j := e] :: (x in entries && x.name != e.name) || x == e
  {
    forall x <- entries[j := e] ensures (x in entries && x.name != e.name) || x == e {
      var k :| 0 <= k < |entries| && entries[j := e][k] == x;
      if k != j {
        assert EntryName(entries[k]) != EntryName(entries[j]);
      }
    }
  }

  lemma RemovedEntry(entries: seq<Entry>, name: string)
    ensures forall x <- Without(entries, EntryName, [name]) :: x in entries && x.name != name
  {
    hide Without;
  }

  lemma AddedEntry(entries: seq<Entry>, e: Entry)
    ensures forall x <- AddEntry(entries, e) :: x in entries || x == e
  {
    hide SortBy;
    forall x <- AddEntry(entries, e) ensures x in entries || x == e {
      SortedMembers(entries + [e], EntryName, x);
    }
  }

  // ---------------------------------------------------------------- applications and databases

  /** A new application or database. */
  lemma CreateAccounted(repo: Repository, tenants: seq<Tenant>, i: nat, databases: bool, name: string, ref: string, file: File, q: Request)
    requires i < |tenants| && !HasLeaf(tenants, LeafOf(name, databases)) && FreshFile(file) && (databases ==> Stored(file))
    ensures var entries := AddEntry(EntriesOf(tenants[i], databases), NewEntry(LeafOf(name, databases), ref));
            Accounted(repo, tenants, Plan(tenants[i := WithEntries(tenants[i], databases, entries)], [WriteLeaf(LeafOf(name, databases), file)]), q)
  {
    hide WrittenOver, FreshFile, Stored, AddEntry;
    var leaf, before := LeafOf(name, databases), EntriesOf(tenants[i], databases);
    var e := NewEntry(leaf, ref);
    FreshWrite(repo, tenants, leaf, file);
    SparesFresh(tenants, i, WriteLeaf(leaf, file));
    AddedEntry(before, e);
    forall x <- before ensures x.name != name {
      var j :| 0 <= j < |before| && before[j] == x;
      EntryListed(tenants, i, databases, j);
    }
    OneEntryChanges(repo, tenants, i, databases, AddEntry(before, e), WriteLeaf(leaf, file), name, q);
  }

  /** A rewritten manifest of an active entry. */
  lemma UpdateAccounted(repo: Repository, tenants: seq<Tenant>, i: nat, databases: bool, j: nat, e: Entry, file: File, q: Request)
    requires Separate(tenants) && i < |tenants| && j < |EntriesOf(tenants[i], databases)| && FreshFile(file)
    requires var was := EntriesOf(tenants[i], databases)[j];
             was.lifecycle.Active? && e.name == was.name && e.lifecycle.Active?
    requires databases ==> Stored(file) && (Manifest(DatabaseLeaf(e.name)) in repo ==> Grows(repo[Manifest(DatabaseLeaf(e.name))], file))
    ensures Accounted(repo, tenants, Plan(tenants[i := WithEntries(tenants[i], databases, EntriesOf(tenants[i], databases)[j := e])],
                                          [WriteLeaf(LeafOf(e.name, databases), file)]), q)
  {
    hide WrittenOver, FreshFile, Stored, Grows, Separate;
    var entries := EntriesOf(tenants[i], databases);
    EntryListed(tenants, i, databases, j);
    Rewrite(repo, tenants, Listed(LeafOf(e.name, databases), Active, entries[j].request), file);
    SparesOwn(tenants, i, WriteLeaf(LeafOf(e.name, databases), file));
    SeparateTenant(tenants, i);
    ReplacedEntry(entries, j, e);
    OneEntryChanges(repo, tenants, i, databases, entries[j := e], WriteLeaf(LeafOf(e.name, databases), file), e.name, q);
  }

  lemma SeparateTenant(tenants: seq<Tenant>, i: nat)
    requires Separate(tenants) && i < |tenants|
    ensures DistinctBy(tenants[i].applications, EntryName) && DistinctBy(tenants[i].databases, EntryName) && DistinctBy(tenants[i].services, ServiceName)
  {
    hide DistinctBy, TenantHas, TenantHasService;
    assert tenants[i] in tenants;
  }

  /** An entry that retires. */
  lemma RetireAccounted(repo: Repository, tenants: seq<Tenant>, i: nat, databases: bool, j: nat, q: Request)
    requires Separate(tenants) && i < |tenants| && j < |EntriesOf(tenants[i], databases)|
    ensures var entries := EntriesOf(tenants[i], databases);
            Accounted(repo, tenants, Plan(tenants[i := WithEntries(tenants[i], databases, entries[j := Retired(entries[j], q.id)])],
                                          [Approve(LeafOf(entries[j].name, databases), q.id, q.p.force)]), q)
  {
    hide Separate, HasLeaf;
    var entries := EntriesOf(tenants[i], databases);
    var e, action := Retired(entries[j], q.id), Approve(LeafOf(entries[j].name, databases), q.id, q.p.force);
    EntryListed(tenants, i, databases, j);
    SparesOwn(tenants, i, action);
    SeparateTenant(tenants, i);
    ReplacedEntry(entries, j, e);
    OneEntryChanges(repo, tenants, i, databases, entries[j := e], action, e.name, q);
  }

  /** An entry that goes. */
  lemma FinalizeAccounted(repo: Repository, tenants: seq<Tenant>, i: nat, databases: bool, j: nat, q: Request)
    requires Separate(tenants) && i < |tenants| && j < |EntriesOf(tenants[i], databases)|
    requires EntriesOf(tenants[i], databases)[j].path == LeafOf(EntriesOf(tenants[i], databases)[j].name, databases)
    ensures var entries := EntriesOf(tenants[i], databases);
            Accounted(repo, tenants, Plan(tenants[i := WithEntries(tenants[i], databases, Without(entries, EntryName, [entries[j].name]))],
                                          [DropLeaf(entries[j].path)]), q)
  {
    hide Separate, HasLeaf, Without;
    var entries := EntriesOf(tenants[i], databases);
    EntryListed(tenants, i, databases, j);
    SparesOwn(tenants, i, DropLeaf(entries[j].path));
    RemovedEntry(entries, entries[j].name);
    OneEntryChanges(repo, tenants, i, databases, Without(entries, EntryName, [entries[j].name]), DropLeaf(entries[j].path), entries[j].name, q);
  }

  lemma NotNamed(tenants: seq<Tenant>, name: string)
    ensures HasLeaf(tenants, AppLeaf(name)) <==> AnyApplication(tenants, name)
    ensures HasLeaf(tenants, DatabaseLeaf(name)) <==> AnyDatabase(tenants, name)
    ensures HasLeaf(tenants, TeamLeaf(name)) <==> Index(tenants, TenantName, name) >= 0
  {
    hide HasEntry, Index;
    var i := Index(tenants, TenantName, name);
    if i < 0 {
      forall t <- tenants ensures t.name != name {
        var k :| 0 <= k < |tenants| && tenants[k] == t;
        assert TenantName(tenants[k]) != name;
      }
    } else {
      assert tenants[i] in tenants && TenantHas(tenants[i], TeamLeaf(name));
    }
  }

  /** The catalog entries have the paths their names give. */
  ghost predicate Derived(tenants: seq<Tenant>) {
    forall t <- tenants ::
      && t.path == TeamLeaf(t.name)
      && (forall a <- t.applications :: a.path == AppLeaf(a.name)) && (forall d <- t.databases :: d.path == DatabaseLeaf(d.name))
      && (forall s <- t.services :: s.path == s.name)
  }

  lemma EntryPlans(repo: Repository, tenants: seq<Tenant>, i: nat, q: Request)
    requires Separate(tenants) && Derived(tenants) && i < |tenants|
    ensures Execute(repo, PlanAppCreate(tenants, i, q).actions).Ok? ==> Accounted(repo, tenants, PlanAppCreate(tenants, i, q), q)
    ensures Execute(repo, PlanAppUpdate(tenants, i, q).actions).Ok? ==> Accounted(repo, tenants, PlanAppUpdate(tenants, i, q), q)
    ensures Execute(repo, PlanAppDelete(tenants, i, q).actions).Ok? ==> Accounted(repo, tenants, PlanAppDelete(tenants, i, q), q)
    ensures Execute(repo, PlanAppFinalize(tenants, i, q).actions).Ok? ==> Accounted(repo, tenants, PlanAppFinalize(tenants, i, q), q)
  {
    hide Execute, Separate, Accounted, HasLeaf, AnyApplication, DatabaseActive, SortBy, Without, Index;
    var t, p := tenants[i], q.p;
    Refusals(repo, tenants, Conflict, q);
    Refusals(repo, tenants, NotFound, q);
    NotNamed(tenants, p.name);
    var file := AppFile(p.team, p, true);
    assert FreshFile(file);
    if !AnyApplication(tenants, p.name) {
      CreateAccounted(repo, tenants, i, false, p.name, p.databaseRef, file, q);
    }
    var j := Index(t.applications, EntryName, p.name);
    if j >= 0 {
      assert t.applications[j] in t.applications && t in tenants;
      if t.applications[j].lifecycle.Active? {
        UpdateAccounted(repo, tenants, i, false, j, t.applications[j].(databaseRef := p.databaseRef), file, q);
      }
      RetireAccounted(repo, tenants, i, false, j, q);
      FinalizeAccounted(repo, tenants, i, false, j, q);
    }
  }

  lemma UpdatedGrows(repo: Repository, p: Parameters)
    requires UpdatedDatabase(repo, p).Ok? && p.size.amount.Some?
    ensures var file := UpdatedDatabase(repo, p).value;
            FreshFile(file) && Stored(file) && (Manifest(DatabaseLeaf(p.name)) in repo ==> Grows(repo[Manifest(DatabaseLeaf(p.name))], file))
  {
    hide ValidName;
  }

  lemma DatabasePlans(repo: Repository, tenants: seq<Tenant>, i: nat, q: Request)
    requires Separate(tenants) && Derived(tenants) && i < |tenants|
    requires q.operation.DatabaseCreate? || q.operation.DatabaseRestore? || q.operation.DatabaseUpdate? ==> q.p.size.amount.Some?
    ensures (q.operation.DatabaseCreate? || q.operation.DatabaseRestore?) && Execute(repo, PlanDatabaseCreate(tenants, i, q).actions).Ok? ==>
              Accounted(repo, tenants, PlanDatabaseCreate(tenants, i, q), q)
    ensures q.operation.DatabaseUpdate? && Execute(repo, PlanDatabaseUpdate(repo, tenants, i, q).actions).Ok? ==>
              Accounted(repo, tenants, PlanDatabaseUpdate(repo, tenants, i, q), q)
    ensures Execute(repo, PlanDatabaseDelete(tenants, i, q).actions).Ok? ==> Accounted(repo, tenants, PlanDatabaseDelete(tenants, i, q), q)
    ensures Execute(repo, PlanDatabaseFinalize(tenants, i, q).actions).Ok? ==> Accounted(repo, tenants, PlanDatabaseFinalize(tenants, i, q), q)
  {
    hide Execute, Separate, Accounted, HasLeaf, AnyDatabase, DatabaseInUse, SortBy, Without, Index, UpdatedDatabase;
    var t, p := tenants[i], q.p;
    Refusals(repo, tenants, Conflict, q);
    Refusals(repo, tenants, NotFound, q);
    NotNamed(tenants, p.name);
    if p.size.amount.Some? && !AnyDatabase(tenants, p.name) {
      var recovery := if q.operation.DatabaseRestore? then Some(Recovery(p.source, p.target)) else None;
      var file := DatabaseManifest(p.team, p, Storage(Some(p.size), LOCAL_PATH), recovery);
      assert FreshFile(file) && Stored(file);
      CreateAccounted(repo, tenants, i, true, p.name, "", file, q);
    }
    var j := Index(t.databases, EntryName, p.name);
    if j >= 0 {
      assert t.databases[j] in t.databases && t in tenants;
      RetireAccounted(repo, tenants, i, true, j, q);
      FinalizeAccounted(repo, tenants, i, true, j, q);
      if q.operation.DatabaseUpdate? && t.databases[j].lifecycle.Active? {
        DatabaseUpdateAccounted(repo, tenants, i, j, q);
      }
    }
  }

  lemma DatabaseUpdateAccounted(repo: Repository, tenants: seq<Tenant>, i: nat, j: nat, q: Request)
    requires Separate(tenants) && i < |tenants| && j < |tenants[i].databases| && Index(tenants[i].databases, EntryName, q.p.name) == j
    requires q.p.size.amount.Some? && tenants[i].databases[j].lifecycle.Active?
    ensures Execute(repo, PlanDatabaseUpdate(repo, tenants, i, q).actions).Ok? ==> Accounted(repo, tenants, PlanDatabaseUpdate(repo, tenants, i, q), q)
  {
    hide Execute, Separate, Accounted, Index, UpdatedDatabase, Stored, Grows, FreshFile;
    var d := tenants[i].databases[j];
    var r := UpdatedDatabase(repo, q.p);
    if r.Err? {
      Refusals(repo, tenants, r.error, q);
    } else {
      UpdatedGrows(repo, q.p);
      UpdateAccounted(repo, tenants, i, true, j, d, r.value, q);
      assert tenants[i].databases[j := d] == tenants[i].databases;
      assert WithEntries(tenants[i], true, tenants[i].databases) == tenants[i] && tenants[i := tenants[i]] == tenants;
    }
  }
}
