/** Change sets: rendered from a repository, applied file by file with a
    comparison before every write. */
module ChangeSets {
  import opened Wrappers
  import opened Catalog
  import opened ChangePlan
  import opened ChangeRenderer
  import CatalogValidation
  import CatalogFacts
  import ChangePaths

  type Listing = seq<(Path, FileChange)>

  // ---------------------------------------------------------------- requests

  predicate DesiredStateOk(q: Request) {
    var p := q.p;
    match q.operation
    case TeamCreate => OwnersOk(p.owners) && p.repositories != [] && ValidName(p.name, 58)
    case TeamUpdate => OwnersOk(p.owners) && p.repositories != [] && ValidName(p.name, 58)
    case AppCreate => p.owner != "" && p.image != "" && p.tag != "" && 1 <= p.port <= 65535 && 1 <= p.min <= p.max <= 100
    case AppUpdate => p.owner != "" && p.image != "" && p.tag != "" && 1 <= p.port <= 65535 && 1 <= p.min <= p.max <= 100
    case DatabaseCreate => 1 <= p.instances <= 3 && p.size.amount.Some? && p.size.amount.value >= ONE_GIBIBYTE
    case DatabaseUpdate => 1 <= p.instances <= 3 && p.size.amount.Some? && p.size.amount.value >= ONE_GIBIBYTE
    case DatabaseRestore => 1 <= p.instances <= 3 && p.size.amount.Some? && p.size.amount.value >= ONE_GIBIBYTE && p.source != ""
    case _ => true
  }

  predicate IsTeamOperation(o: Operation) { o.TeamCreate? || o.TeamUpdate? || o.TeamDelete? || o.TeamFinalize? }
  predicate IsServiceOperation(o: Operation) { o.ServiceScaffold? || o.ServiceActivate? || o.ServiceRetire? || o.ServiceFinalize? }
  predicate IsFinalize(o: Operation) { o.TeamFinalize? || o.AppFinalize? || o.DatabaseFinalize? || o.ServiceFinalize? }

  predicate RequestOk(q: Request) {
    var p := q.p;
    && q.wellFormed && IsUuid(q.id) && ValidName(p.name, 63)
    && (if IsTeamOperation(q.operation) then p.team == "" else ValidName(p.team, 58))
    && (IsFinalize(q.operation) ==> IsUuid(p.deletionRequest))
    && (IsServiceOperation(q.operation) ==> ValidName(p.name, 48))
    && (q.operation.ServiceScaffold? ==>
          !p.template.NoTemplate? && p.version == Version(0, 1, 0) && (p.withDatabase ==> p.template.FullStack?) && (p.createTeam ==> p.team == p.name))
    && (q.operation.ServiceActivate? ==> p.version.Version?)
    && DesiredStateOk(q)
  }

  /** A repository whose catalog parses and is valid. */
  predicate Loads(repo: Repository) {
    CatalogPath in repo && repo[CatalogPath].CatalogFile? && Valid(repo.Keys, repo[CatalogPath].tenants)
  }

  function Rendered(repo: Repository, q: Request): Result<Changes, ExitCode> {
    if !RequestOk(q) then Err(Usage)
    else if CatalogPath !in repo then Err(Internal)
    else if !Loads(repo) then Err(Usage)
    else
      var plan := PlanOf(repo, repo[CatalogPath].tenants, q);
      var done := Execute(repo, plan.actions);
      if done.Err? then done
      else
        var changes := done.value + SetChange(repo, CatalogPath, CatalogFile(plan.tenants));
        if changes == map[] then Err(Conflict) else Ok(changes)
  }

  /** Each change once. */
  ghost predicate Lists(files: Listing, changes: Changes) {
    && (forall i :: 0 <= i < |files| ==> files[i].0 in changes && files[i].1 == changes[files[i].0])
    && (forall i, j :: 0 <= i < j < |files| ==> files[i].0 != files[j].0)
    && (forall p <- changes :: exists i :: 0 <= i < |files| && files[i].0 == p)
  }

  lemma ValidNamesDiffer(paths: set<Path>, tenants: seq<Tenant>)
    requires Valid(paths, tenants)
    ensures NamesDiffer(tenants)
  {
    hide UniqueNames, AllNames, TenantOk, CatalogFacts.TenantHasService;
    CatalogFacts.UniqueIsSeparate(tenants);
    forall i, k | 0 <= i < k < |tenants| ensures TenantName(tenants[i]) != TenantName(tenants[k]) {
      assert CatalogFacts.TenantHas(tenants[i], TeamLeaf(tenants[i].name)) && CatalogFacts.TenantHas(tenants[k], TeamLeaf(tenants[k].name));
    }
  }

  method RenderChange(repo: Repository, q: Request) returns (r: Result<Listing, ExitCode>)
    ensures match Rendered(repo, q)
            case Ok(changes) => r.Ok? && r.value != [] && Lists(r.value, changes) && CatalogFacts.Sorted(r.value, PathText)
            case Err(code) => r == Err(code)
  {
    hide RequestOk, Valid, PlanOf, Execute, Lists, CatalogFacts.Sorted, SortBy;
    if !RequestOk(q) {
      return Err(Usage);
    }
    if CatalogPath !in repo {
      return Err(Internal);
    }
    if !repo[CatalogPath].CatalogFile? {
      return Err(Usage);
    }
    var tenants := repo[CatalogPath].tenants;
    var valid := CatalogValidation.Validate(repo.Keys, tenants);
    if !valid {
      return Err(Usage);
    }
    ValidNamesDiffer(repo.Keys, tenants);
    var renderer := new ChangeRenderer(repo, q, tenants);
    var outcome := renderer.Render();
    if outcome.Stopped? {
      return Err(outcome.code);
    }
    var _ := renderer.Set(CatalogPath, CatalogFile(renderer.tenants));
    if renderer.changes == map[] {
      return Err(Conflict);
    }
    var files := Enumerate(renderer.changes);
    CatalogFacts.SortBySorts(files, PathText);
    SortedLists(files, renderer.changes);
    return Ok(SortBy(files, PathText));
  }

  /** What the listing is sorted by. */
  function PathText(file: (Path, FileChange)): string {
    if Allowed(file.0) then ChangePaths.Text(file.0) else ""
  }

  lemma SortedLists(files: Listing, changes: Changes)
    requires Lists(files, changes)
    ensures Lists(SortBy(files, PathText), changes)
  {
    hide SortBy;
    var sorted := SortBy(files, PathText);
    forall file ensures file in sorted <==> file in files {
      CatalogFacts.SortedMembers(files, PathText, file);
    }
    forall i | 0 <= i < |sorted| ensures sorted[i].0 in changes && sorted[i].1 == changes[sorted[i].0] {
      assert sorted[i] in files;
    }
    forall i, j | 0 <= i < j < |sorted| ensures sorted[i].0 != sorted[j].0 {
      assert sorted[i] in files && sorted[j] in files;
      if sorted[i] == sorted[j] {
        CatalogFacts.TwiceIn(sorted, i, j);
        CatalogFacts.OnceIn(files, sorted[i]);
      }
    }
    forall p <- changes ensures exists i :: 0 <= i < |sorted| && sorted[i].0 == p {
      var k :| 0 <= k < |files| && files[k].0 == p;
      assert files[k] in sorted;
    }
  }

  method Enumerate(changes: Changes) returns (files: Listing)
    ensures Lists(files, changes) && |files| == |changes|
  {
    var rest := changes.Keys;
    files := [];
    while rest != {}
      invariant rest <= changes.Keys && |files| + |rest| == |changes|
      invariant forall i :: 0 <= i < |files| ==> files[i].0 in changes && files[i].0 !in rest && files[i].1 == changes[files[i].0]
      invariant forall i, j :: 0 <= i < j < |files| ==> files[i].0 != files[j].0
      invariant forall p <- changes :: p in rest || exists i :: 0 <= i < |files| && files[i].0 == p
      decreases |rest|
    {
      var p :| p in rest;
      ghost var before := files;
      rest := rest - {p};
      files := files + [(p, changes[p])];
      assert files[|before|].0 == p && forall i :: 0 <= i < |before| ==> files[i] == before[i];
    }
  }

  // ---------------------------------------------------------------- applying

  predicate Ready(repo: Repository, path: Path, change: FileChange) {
    Allowed(path) && if change.action.Create? then path !in repo else path in repo && change.before == Some(repo[path])
  }

  function ApplyOne(repo: Repository, path: Path, change: FileChange): Repository {
    if change.content.Some? then repo[path := change.content.value] else repo - {path}
  }

  function After(repo: Repository, files: Listing): Repository {
    if files == [] then repo
    else ApplyOne(After(repo, files[..|files| - 1]), files[|files| - 1].0, files[|files| - 1].1)
  }

  /** The first `k` files went in one after the other, each as rendered. */
  ghost predicate Applied(repo: Repository, files: Listing, k: nat) {
    k <= |files| && forall j :: 0 <= j < k ==> Ready(After(repo, files[..j]), files[j].0, files[j].1)
  }

  lemma NothingApplied(repo: Repository, files: Listing)
    ensures Applied(repo, files, 0) && After(repo, files[..0]) == repo
  {
  }

  lemma OneMoreApplied(repo: Repository, files: Listing, i: nat)
    requires i < |files| && Applied(repo, files, i) && Ready(After(repo, files[..i]), files[i].0, files[i].1)
    ensures Applied(repo, files, i + 1) && After(repo, files[..i + 1]) == ApplyOne(After(repo, files[..i]), files[i].0, files[i].1)
  {
    hide Ready;
    assert files[..i + 1][..i] == files[..i];
  }

  class WorkingTree {
    var files: Repository

    constructor (files: Repository)
      ensures this.files == files
    {
      this.files := files;
    }

    method ApplyChangeSet(listing: Listing) returns (r: Outcome, ghost k: nat)
      modifies this
      ensures Applied(old(files), listing, k) && files == After(old(files), listing[..k])
      ensures r.Done? <==> k == |listing|
      ensures k < |listing| ==> !Ready(files, listing[k].0, listing[k].1)
      ensures k < |listing| ==> r.code == if Allowed(listing[k].0) then Conflict else Usage
    {
      hide Allowed, After, Applied;
      var i := 0;
      k := 0;
      NothingApplied(files, listing);
      while i < |listing|
        invariant 0 <= i == k <= |listing| && Applied(old(files), listing, i) && files == After(old(files), listing[..i])
      {
        var path, change := listing[i].0, listing[i].1;
        if !Allowed(path) {
          return Stopped(Usage), i;
        }
        if change.action.Create? {
          if path in files {
            return Stopped(Conflict), i;
          }
        } else if path !in files || change.before != Some(files[path]) {
          return Stopped(Conflict), i;
        }
        OneMoreApplied(old(files), listing, i);
        if change.content.Some? {
          files := files[path := change.content.value];
        } else {
          files := files - {path};
        }
        i, k := i + 1, k + 1;
      }
      assert listing[..i] == listing;
      r := Done;
    }
  }

  // ---------------------------------------------------------------- rendered sets

  /** Every change differs from the repository it was rendered from. */
  ghost predicate WellFormed(repo: Repository, changes: Changes) {
    forall p <- changes ::
      var c := changes[p];
      && Allowed(p)
      && match c.action
         case Create => p !in repo && c.content.Some? && c.before.None?
         case Update => p in repo && c.content.Some? && c.before == Some(repo[p]) && c.content != c.before
         case Delete => p in repo && c.content.None? && c.before == Some(repo[p])
  }

  lemma SetIsWellFormed(repo: Repository, path: Path, file: File)
    requires Allowed(path)
    ensures WellFormed(repo, SetChange(repo, path, file))
  {
  }

  lemma UnionIsWellFormed(repo: Repository, a: Changes, b: Changes)
    requires WellFormed(repo, a) && WellFormed(repo, b)
    ensures WellFormed(repo, a + b)
  {
    hide Allowed;
  }

  lemma {:induction false} SetFilesWellFormed(repo: Repository, s: Service, files: seq<SourceFile>)
    requires AllAllowed(s.path, files)
    ensures WellFormed(repo, SetFiles(repo, s, files))
    decreases |files|
  {
    hide WellFormed, Allowed, SetChange, SourceContent;
    if files == [] {
      NothingIsWellFormed(repo);
    } else {
      var init, f := files[..|files| - 1], files[|files| - 1];
      SetFilesWellFormed(repo, s, init);
      SetIsWellFormed(repo, Source(s.path, f), SourceContent(repo, s, f));
      UnionIsWellFormed(repo, SetFiles(repo, s, init), SetChange(repo, Source(s.path, f), SourceContent(repo, s, f)));
    }
  }

  lemma {:induction false} RemoveFilesWellFormed(repo: Repository, service: string, files: seq<SourceFile>)
    requires AllAllowed(service, files) && AllPresent(repo, service, files)
    ensures WellFormed(repo, RemoveFiles(repo, service, files))
    decreases |files|
  {
    hide Allowed;
    if files != [] {
      RemoveFilesWellFormed(repo, service, files[..|files| - 1]);
    }
  }

  lemma NothingIsWellFormed(repo: Repository)
    ensures WellFormed(repo, map[])
  {
  }

  lemma EffectIsWellFormed(repo: Repository, a: Action)
    requires Blocked(repo, a).None?
    ensures WellFormed(repo, ChangePlan.Effect(repo, a))
  {
    hide WellFormed, SetChange, SetFiles, RemoveFiles, SourceFiles, ValidName;
    match a
    case WriteLeaf(leaf, manifest) =>
      SetIsWellFormed(repo, Manifest(leaf), manifest);
      SetIsWellFormed(repo, Kustomization(leaf), KustomizationFile(leaf));
      UnionIsWellFormed(repo, SetChange(repo, Manifest(leaf), manifest), SetChange(repo, Kustomization(leaf), KustomizationFile(leaf)));
    case Approve(leaf, id, force) => SetIsWellFormed(repo, Manifest(leaf), Marked(repo[Manifest(leaf)], id, force));
    case DropLeaf(leaf) => RemovalsAreWellFormed(repo, leaf);
    case WriteSource(s) => SetFilesWellFormed(repo, s, SourceFiles(s.template));
    case WriteVersion(s) => SetFilesWellFormed(repo, s, [VersionFile, Descriptor]);
    case DropSource(s) => RemoveFilesWellFormed(repo, s.path, SourceFiles(s.template));
  }

  lemma RemovalsAreWellFormed(repo: Repository, leaf: Leaf)
    requires Allowed(Manifest(leaf)) && Manifest(leaf) in repo && Kustomization(leaf) in repo
    ensures WellFormed(repo, RemoveChange(repo, Manifest(leaf)) + RemoveChange(repo, Kustomization(leaf)))
  {
    hide ValidName;
  }

  lemma {:induction false} OverlayIsWellFormed(repo: Repository, actions: seq<Action>)
    requires Execute(repo, actions).Ok?
    ensures WellFormed(repo, Execute(repo, actions).value)
    decreases |actions|
  {
    hide WellFormed, Blocked, ChangePlan.Effect;
    if actions == [] {
      NothingIsWellFormed(repo);
    } else {
      var init, last := actions[..|actions| - 1], actions[|actions| - 1];
      OverlayIsWellFormed(repo, init);
      EffectIsWellFormed(repo, last);
      UnionIsWellFormed(repo, Execute(repo, init).value, ChangePlan.Effect(repo, last));
    }
  }

  lemma RenderedIsWellFormed(repo: Repository, q: Request)
    requires Rendered(repo, q).Ok?
    ensures WellFormed(repo, Rendered(repo, q).value)
  {
    hide WellFormed, Execute, RequestOk, PlanOf, Valid, SetChange;
    var plan := PlanOf(repo, repo[CatalogPath].tenants, q);
    OverlayIsWellFormed(repo, plan.actions);
    SetIsWellFormed(repo, CatalogPath, CatalogFile(plan.tenants));
    UnionIsWellFormed(repo, Execute(repo, plan.actions).value, SetChange(repo, CatalogPath, CatalogFile(plan.tenants)));
  }

  /** After some files of a listing, exactly those paths have changed. */
  lemma {:induction false} AfterSome(repo: Repository, files: Listing, changes: Changes, k: nat)
    requires Lists(files, changes) && k <= |files|
    ensures var tree := After(repo, files[..k]);
            && (forall i :: 0 <= i < k ==> if files[i].1.content.Some? then files[i].0 in tree && tree[files[i].0] == files[i].1.content.value
                                           else files[i].0 !in tree)
            && forall p :: (forall i :: 0 <= i < k ==> files[i].0 != p) ==> (p in tree <==> p in repo) && (p in repo ==> tree[p] == repo[p])
  {
    if k > 0 {
      hide After, Lists;
      AfterSome(repo, files, changes, k - 1);
      AfterOne(repo, files, k);
      ListedOnce(files, changes);
    }
  }

  lemma AfterOne(repo: Repository, files: Listing, k: nat)
    requires 0 < k <= |files|
    ensures After(repo, files[..k]) == ApplyOne(After(repo, files[..k - 1]), files[k - 1].0, files[k - 1].1)
  {
    assert files[..k][..k - 1] == files[..k - 1] && files[..k][k - 1] == files[k - 1];
  }

  lemma ListedOnce(files: Listing, changes: Changes)
    requires Lists(files, changes)
    ensures forall i, j :: 0 <= i < j < |files| ==> files[i].0 != files[j].0
  {
  }

  /** Applying a rendered set to the repository it was rendered from succeeds and yields the overlay. */
  method ApplyRendered(repo: Repository, q: Request) returns (tree: WorkingTree, rendered: Result<Listing, ExitCode>)
    ensures fresh(tree) && (rendered.Ok? <==> Rendered(repo, q).Ok?)
    ensures tree.files == if rendered.Ok? then View(repo, Rendered(repo, q).value) else repo
  {
    hide Rendered, View, Lists;
    tree := new WorkingTree(repo);
    rendered := RenderChange(repo, q);
    if rendered.Ok? {
      var r;
      ghost var k;
      RenderedIsWellFormed(repo, q);
      EveryFileIsReady(repo, rendered.value, Rendered(repo, q).value);
      r, k := tree.ApplyChangeSet(rendered.value);
      assert rendered.value[..k] == rendered.value;
      AfterAll(repo, rendered.value, Rendered(repo, q).value);
    }
  }

  lemma EveryFileIsReady(repo: Repository, files: Listing, changes: Changes)
    requires Lists(files, changes) && WellFormed(repo, changes)
    ensures forall j :: 0 <= j < |files| ==> Ready(After(repo, files[..j]), files[j].0, files[j].1)
  {
    hide Allowed, After;
    forall j | 0 <= j < |files| ensures Ready(After(repo, files[..j]), files[j].0, files[j].1) {
      AfterSome(repo, files, changes, j);
      assert files[j].0 in changes;
    }
  }

  lemma AfterAll(repo: Repository, files: Listing, changes: Changes)
    requires Lists(files, changes)
    ensures After(repo, files) == View(repo, changes)
  {
    hide After;
    AfterSome(repo, files, changes, |files|);
    assert files[..|files|] == files;
    var tree, view := After(repo, files), View(repo, changes);
    forall p ensures (p in tree <==> p in view) && (p in tree ==> tree[p] == view[p]) {
      if p in changes {
        var i :| 0 <= i < |files| && files[i].0 == p;
      }
    }
  }

  /** A set that was applied is refused at its first file and changes nothing. */
  method ReapplyIsRefused(repo: Repository, q: Request, tree: WorkingTree, files: Listing) returns (r: Outcome)
    requires Rendered(repo, q).Ok? && Lists(files, Rendered(repo, q).value) && files != []
    requires tree.files == View(repo, Rendered(repo, q).value)
    modifies tree
    ensures r == Stopped(Conflict) && tree.files == old(tree.files)
  {
    hide Rendered, Lists, Allowed;
    ghost var k;
    RenderedIsWellFormed(repo, q);
    FirstIsStale(repo, files, Rendered(repo, q).value);
    r, k := tree.ApplyChangeSet(files);
  }

  lemma FirstIsStale(repo: Repository, files: Listing, changes: Changes)
    requires WellFormed(repo, changes) && Lists(files, changes) && files != []
    ensures Allowed(files[0].0) && !Ready(After(View(repo, changes), files[..0]), files[0].0, files[0].1)
  {
    hide Allowed;
    NothingApplied(View(repo, changes), files);
    assert files[0].0 in changes;
  }
}
