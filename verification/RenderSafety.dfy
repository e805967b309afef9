/** How every operation accounts for every leaf the catalog lists afterwards. */
module RenderSafety {
  import opened Wrappers
  import opened Catalog
  import opened CatalogFacts
  import opened ChangePlan
  import opened OverlayFacts

  // ---------------------------------------------------------------- what a catalog lists

  datatype Listed = Listed(leaf: Leaf, lifecycle: Lifecycle, request: string)

  predicate ListedIn(entries: seq<Entry>, name: string, lifecycle: Lifecycle, request: string) {
    exists e <- entries :: e.name == name && e.lifecycle == lifecycle && e.request == request
  }

  predicate TenantLists(t: Tenant, l: Listed) {
    match l.leaf
    case TeamLeaf(name) => t.name == name && t.lifecycle == l.lifecycle && t.request == l.request
    case AppLeaf(name) => ListedIn(t.applications, name, l.lifecycle, l.request)
    case DatabaseLeaf(name) => ListedIn(t.databases, name, l.lifecycle, l.request)
  }

  predicate CatalogLists(tenants: seq<Tenant>, l: Listed) { exists t <- tenants :: TenantLists(t, l) }

  // ---------------------------------------------------------------- agreement with the manifests

  /** An active leaf is protected from pruning and unmarked; a retiring one carries the catalog's deletion request. */
  predicate LeafAgrees(repo: Repository, l: Listed) {
    && Manifest(l.leaf) in repo && repo[Manifest(l.leaf)].ManifestFile?
    && var a := repo[Manifest(l.leaf)].metadata.annotations;
       match l.lifecycle
       case Active => a.syncOptions == Some(PRUNE_DISABLED) && a.deletionRequest.None?
       case Retiring => a.syncOptions.None? && a.deletionRequest == Some(l.request)
       case Scaffolded => false
  }

  /** A database manifest with a storage class and a readable size. */
  predicate Stored(file: File) {
    && file.ManifestFile? && file.spec.DatabaseSpec? && file.spec.storage.Some? && file.spec.storage.value.storageClass != ""
    && file.spec.storage.value.size.Some? && file.spec.storage.value.size.value.amount.Some?
  }

  function StorageAmount(file: File): int
    requires Stored(file)
  {
    file.spec.storage.value.size.value.amount.value
  }

  /** The storage does not shrink, and neither its class nor the recovery stanza changes. */
  predicate Grows(before: File, after: File) {
    Stored(before) ==>
      Stored(after) && StorageAmount(before) <= StorageAmount(after)
      && after.spec.storage.value.storageClass == before.spec.storage.value.storageClass && after.spec.recovery == before.spec.recovery
  }

  ghost predicate Consistent(repo: Repository, tenants: seq<Tenant>) {
    forall l :: CatalogLists(tenants, l) ==> LeafAgrees(repo, l) && (l.leaf.DatabaseLeaf? ==> Stored(repo[Manifest(l.leaf)]))
  }

  // ---------------------------------------------------------------- accounting

  predicate FreshFile(file: File) {
    file.ManifestFile? && file.metadata.annotations.syncOptions == Some(PRUNE_DISABLED) && file.metadata.annotations.deletionRequest.None?
  }

  predicate Kept(tenants: seq<Tenant>, actions: seq<Action>, l: Listed) { CatalogLists(tenants, l) && !Touched(actions, l.leaf) }

  /** Only active or new leaves are written, and the storage of a listed database only grows. */
  ghost predicate WrittenOver(repo: Repository, tenants: seq<Tenant>, leaf: Leaf, file: File) {
    && FreshFile(file) && (leaf.DatabaseLeaf? ==> Stored(file))
    && forall l :: CatalogLists(tenants, l) && l.leaf == leaf ==>
         l.lifecycle.Active? && (leaf.DatabaseLeaf? && Manifest(leaf) in repo ==> Grows(repo[Manifest(leaf)], file))
  }

  ghost predicate Written(repo: Repository, tenants: seq<Tenant>, actions: seq<Action>, l: Listed) {
    l.lifecycle.Active? && exists a <- actions :: a.WriteLeaf? && a.leaf == l.leaf && WrittenOver(repo, tenants, a.leaf, a.manifest)
  }

  predicate HasLeaf(tenants: seq<Tenant>, leaf: Leaf) { exists t <- tenants :: TenantHas(t, leaf) }

  predicate Approved(tenants: seq<Tenant>, actions: seq<Action>, q: Request, l: Listed) {
    l.lifecycle.Retiring? && l.request == q.id && Approve(l.leaf, q.id, q.p.force) in actions && HasLeaf(tenants, l.leaf)
  }

  ghost predicate Accounts(repo: Repository, tenants: seq<Tenant>, actions: seq<Action>, q: Request, t: Tenant) {
    forall l :: TenantLists(t, l) ==> Kept(tenants, actions, l) || Written(repo, tenants, actions, l) || Approved(tenants, actions, q, l)
  }

  ghost predicate Accounted(repo: Repository, tenants: seq<Tenant>, plan: Plan, q: Request) {
    Unanimous(plan.actions) && forall t <- plan.tenants :: Accounts(repo, tenants, plan.actions, q, t)
  }

  // ---------------------------------------------------------------- what accounting gives

  /** Every operation keeps catalog and manifests in agreement. */
  lemma StaysConsistent(repo: Repository, tenants: seq<Tenant>, plan: Plan, q: Request)
    requires Consistent(repo, tenants) && Accounted(repo, tenants, plan, q) && Execute(repo, plan.actions).Ok?
    ensures Consistent(FilesAfter(repo, plan), plan.tenants)
  {
    hide Execute, FilesAfter, Unanimous, TenantLists, Touched, Stored, Accounts;
    var after := FilesAfter(repo, plan);
    forall l | CatalogLists(plan.tenants, l) ensures LeafAgrees(after, l) && (l.leaf.DatabaseLeaf? ==> Stored(after[Manifest(l.leaf)])) {
      var t :| t in plan.tenants && TenantLists(t, l);
      AccountsFor(repo, tenants, plan.actions, q, t, l);
      if Kept(tenants, plan.actions, l) {
        KeptLeafAfter(repo, plan, l.leaf);
      } else if Written(repo, tenants, plan.actions, l) {
        var a :| a in plan.actions && a.WriteLeaf? && a.leaf == l.leaf && WrittenOver(repo, tenants, a.leaf, a.manifest);
        WrittenLeafAfter(repo, plan, l.leaf, a.manifest);
      } else {
        MarkedLeafAfter(repo, plan, l.leaf, q.id, q.p.force);
        var was := ListingOf(tenants, l.leaf);
        MarkKeepsStorage(repo[Manifest(l.leaf)], q.id, q.p.force);
      }
    }
  }

  lemma MarkKeepsStorage(file: File, id: string, force: bool)
    requires file.ManifestFile?
    ensures Stored(file) ==> Stored(Marked(file, id, force))
  {
  }

  lemma AccountsFor(repo: Repository, tenants: seq<Tenant>, actions: seq<Action>, q: Request, t: Tenant, l: Listed)
    requires Accounts(repo, tenants, actions, q, t) && TenantLists(t, l)
    ensures Kept(tenants, actions, l) || Written(repo, tenants, actions, l) || Approved(tenants, actions, q, l)
  {
    hide Kept, Written, Approved, TenantLists;
  }

  lemma ListingOf(tenants: seq<Tenant>, leaf: Leaf) returns (l: Listed)
    requires HasLeaf(tenants, leaf)
    ensures CatalogLists(tenants, l) && l.leaf == leaf
  {
    var t :| t in tenants && TenantHas(t, leaf);
    match leaf {
      case TeamLeaf(_) => l := Listed(leaf, t.lifecycle, t.request);
      case AppLeaf(name) =>
        var e :| e in t.applications && e.name == name;
        l := Listed(leaf, e.lifecycle, e.request);
      case DatabaseLeaf(name) =>
        var e :| e in t.databases && e.name == name;
        l := Listed(leaf, e.lifecycle, e.request);
    }
    assert TenantLists(t, l);
  }

  /** A retiring leaf never becomes active again: it stays retiring or goes. */
  lemma RetirementIsFinal(repo: Repository, tenants: seq<Tenant>, plan: Plan, q: Request, was: Listed, now: Listed)
    requires Accounted(repo, tenants, plan, q) && Separate(tenants)
    requires CatalogLists(tenants, was) && was.lifecycle.Retiring? && CatalogLists(plan.tenants, now) && now.leaf == was.leaf
    ensures now.lifecycle.Retiring? && (now.request == was.request || now.request == q.id)
  {
    hide Unanimous, Touched, Accounts, TenantLists;
    var t :| t in plan.tenants && TenantLists(t, now);
    AccountsFor(repo, tenants, plan.actions, q, t, now);
    if Kept(tenants, plan.actions, now) {
      ListedOnce(tenants, was, now);
    }
  }

  /** With unique names a leaf is listed once. */
  lemma ListedOnce(tenants: seq<Tenant>, a: Listed, b: Listed)
    requires Separate(tenants) && CatalogLists(tenants, a) && CatalogLists(tenants, b) && a.leaf == b.leaf
    ensures a == b
  {
    hide DistinctBy, TenantHas;
    var s :| s in tenants && TenantLists(s, a);
    var t :| t in tenants && TenantLists(t, b);
    var i :| 0 <= i < |tenants| && tenants[i] == s;
    var k :| 0 <= k < |tenants| && tenants[k] == t;
    ListsIsHas(s, a);
    ListsIsHas(t, b);
    assert i == k;
    ListedOnceIn(s, a, b);
  }

  lemma ListsIsHas(t: Tenant, l: Listed)
    requires TenantLists(t, l)
    ensures TenantHas(t, l.leaf)
  {
  }

  lemma ListedOnceIn(t: Tenant, a: Listed, b: Listed)
    requires DistinctBy(t.applications, EntryName) && DistinctBy(t.databases, EntryName)
    requires TenantLists(t, a) && TenantLists(t, b) && a.leaf == b.leaf
    ensures a == b
  {
    match a.leaf {
      case TeamLeaf(_) =>
      case AppLeaf(name) => OneEntry(t.applications, name, a.lifecycle, a.request, b.lifecycle, b.request);
      case DatabaseLeaf(name) => OneEntry(t.databases, name, a.lifecycle, a.request, b.lifecycle, b.request);
    }
  }

  lemma OneEntry(entries: seq<Entry>, name: string, a: Lifecycle, ra: string, b: Lifecycle, rb: string)
    requires DistinctBy(entries, EntryName) && ListedIn(entries, name, a, ra) && ListedIn(entries, name, b, rb)
    ensures a == b && ra == rb
  {
    var i :| 0 <= i < |entries| && entries[i].name == name && entries[i].lifecycle == a && entries[i].request == ra;
    var j :| 0 <= j < |entries| && entries[j].name == name && entries[j].lifecycle == b && entries[j].request == rb;
    assert EntryName(entries[i]) == EntryName(entries[j]);
  }

  /** From its creation to its removal a database keeps its class and recovery and never shrinks. */
  lemma StorageOnlyGrows(repo: Repository, tenants: seq<Tenant>, plan: Plan, q: Request, name: string)
    requires Consistent(repo, tenants) && Accounted(repo, tenants, plan, q) && Execute(repo, plan.actions).Ok?
    requires HasLeaf(tenants, DatabaseLeaf(name)) && HasLeaf(plan.tenants, DatabaseLeaf(name))
    ensures var p := Manifest(DatabaseLeaf(name));
            && p in repo && p in FilesAfter(repo, plan) && Stored(repo[p]) && Grows(repo[p], FilesAfter(repo, plan)[p])
  {
    hide Execute, FilesAfter, Unanimous, TenantLists, Touched, Accounts, FreshFile;
    var leaf := DatabaseLeaf(name);
    var was := ListingOf(tenants, leaf);
    var l := ListingOf(plan.tenants, leaf);
    var t :| t in plan.tenants && TenantLists(t, l);
    AccountsFor(repo, tenants, plan.actions, q, t, l);
    if Kept(tenants, plan.actions, l) {
      KeptLeafAfter(repo, plan, leaf);
    } else if Written(repo, tenants, plan.actions, l) {
      var a :| a in plan.actions && a.WriteLeaf? && a.leaf == leaf && WrittenOver(repo, tenants, a.leaf, a.manifest);
      WrittenLeafAfter(repo, plan, leaf, a.manifest);
    } else {
      MarkedLeafAfter(repo, plan, leaf, q.id, q.p.force);
    }
  }
}
