/** Which path an action decides, and what the files look like once it has run. */
module OverlayFacts {
  import opened Wrappers
  import opened Catalog
  import opened ChangePlan

  function ActionLeaf(a: Action): Option<Leaf> {
    match a
    case WriteLeaf(leaf, _) => Some(leaf)
    case Approve(leaf, _, _) => Some(leaf)
    case DropLeaf(leaf) => Some(leaf)
    case _ => None
  }

  function ActionSource(a: Action): Option<string> {
    match a
    case WriteSource(s) => Some(s.path)
    case WriteVersion(s) => Some(s.path)
    case DropSource(s) => Some(s.path)
    case _ => None
  }

  predicate Touched(actions: seq<Action>, leaf: Leaf) { exists a <- actions :: ActionLeaf(a) == Some(leaf) }

  predicate TouchedSource(actions: seq<Action>, service: string) { exists a <- actions :: ActionSource(a) == Some(service) }

  /** Two actions on one leaf, or on one source, are the same action. */
  predicate Unanimous(actions: seq<Action>) {
    && (forall a <- actions, b <- actions :: ActionLeaf(a).Some? && ActionLeaf(a) == ActionLeaf(b) ==> a == b)
    && (forall a <- actions, b <- actions :: ActionSource(a).Some? && ActionSource(a) == ActionSource(b) ==> a == b)
  }

  /** The path is one of the files an action is about. */
  predicate About(a: Action, p: Path) {
    || (ActionLeaf(a).Some? && (p == Manifest(ActionLeaf(a).value) || p == Kustomization(ActionLeaf(a).value)))
    || (ActionSource(a).Some? && p.Source? && p.service == ActionSource(a).value)
  }

  lemma {:induction false} SetFilesAt(repo: Repository, s: Service, files: seq<SourceFile>, p: Path)
    ensures p in SetFiles(repo, s, files) ==> p.Source? && p.service == s.path && p.file in files
    ensures p.Source? && p.service == s.path && p.file in files && !(p in repo && repo[p] == SourceContent(repo, s, p.file)) ==>
              p in SetFiles(repo, s, files)
    ensures p in SetFiles(repo, s, files) ==> SetFiles(repo, s, files)[p].content == Some(SourceContent(repo, s, p.file))
    decreases |files|
  {
    hide SourceContent;
    if files != [] {
      SetFilesAt(repo, s, files[..|files| - 1], p);
      assert forall f :: f in files <==> f in files[..|files| - 1] || f == files[|files| - 1];
    }
  }

  lemma {:induction false} RemoveFilesAt(repo: Repository, service: string, files: seq<SourceFile>, p: Path)
    requires AllPresent(repo, service, files)
    ensures p in RemoveFiles(repo, service, files) <==> p.Source? && p.service == service && p.file in files
    ensures p in RemoveFiles(repo, service, files) ==> RemoveFiles(repo, service, files)[p].content.None?
    decreases |files|
  {
    if files != [] {
      RemoveFilesAt(repo, service, files[..|files| - 1], p);
      assert forall f :: f in files <==> f in files[..|files| - 1] || f == files[|files| - 1];
    }
  }

  lemma EffectIsAbout(repo: Repository, a: Action, p: Path)
    requires Blocked(repo, a).None? && p in Effect(repo, a)
    ensures About(a, p)
  {
    hide SourceFiles, ValidName, SourceContent, LeafExists, OnlyGenerated;
    match a {
      case WriteSource(s) => SetFilesAt(repo, s, SourceFiles(s.template), p);
      case WriteVersion(s) => SetFilesAt(repo, s, [VersionFile, Descriptor], p);
      case DropSource(s) => RemoveFilesAt(repo, s.path, SourceFiles(s.template), p);
      case _ =>
    }
  }

  lemma {:induction false} NoneBlocked(repo: Repository, actions: seq<Action>, a: Action)
    requires Execute(repo, actions).Ok? && a in actions
    ensures Blocked(repo, a).None?
    decreases |actions|
  {
    hide Blocked, Effect;
    if a != actions[|actions| - 1] {
      NoneBlocked(repo, actions[..|actions| - 1], a);
    }
  }

  /** A path no action is about keeps its content. */
  lemma {:induction false} NobodyDecides(repo: Repository, actions: seq<Action>, p: Path)
    requires Execute(repo, actions).Ok? && forall a <- actions :: !About(a, p)
    ensures p !in Execute(repo, actions).value
    decreases |actions|
  {
    hide Blocked, Effect, About;
    if actions != [] {
      var last := actions[|actions| - 1];
      NobodyDecides(repo, actions[..|actions| - 1], p);
      if p in Effect(repo, last) {
        EffectIsAbout(repo, last, p);
      }
    }
  }

  /** A path that only one action is about is decided by it. */
  lemma {:induction false} OneDecides(repo: Repository, actions: seq<Action>, a: Action, p: Path)
    requires Execute(repo, actions).Ok? && a in actions && forall b <- actions :: About(b, p) ==> b == a
    ensures Blocked(repo, a).None?
    ensures p in Execute(repo, actions).value <==> p in Effect(repo, a)
    ensures p in Effect(repo, a) ==> Execute(repo, actions).value[p] == Effect(repo, a)[p]
    decreases |actions|
  {
    hide Blocked, Effect, About;
    NoneBlocked(repo, actions, a);
    var init, last := actions[..|actions| - 1], actions[|actions| - 1];
    if last != a && p in Effect(repo, last) {
      EffectIsAbout(repo, last, p);
    }
    if a in init {
      OneDecides(repo, init, a, p);
    } else {
      forall b <- init ensures !About(b, p) {
        assert b in actions;
      }
      NobodyDecides(repo, init, p);
    }
  }

  lemma OnlyAction(actions: seq<Action>, a: Action, p: Path)
    requires Unanimous(actions) && a in actions && About(a, p)
    ensures forall b <- actions :: About(b, p) ==> b == a
  {
  }

  // ---------------------------------------------------------------- the files afterwards

  /** The files once the actions have run and the catalog was rewritten. */
  function FilesAfter(repo: Repository, plan: Plan): Repository
    requires Execute(repo, plan.actions).Ok?
  {
    View(repo, Execute(repo, plan.actions).value + SetChange(repo, CatalogPath, CatalogFile(plan.tenants)))
  }

  lemma CatalogAfter(repo: Repository, plan: Plan)
    requires Execute(repo, plan.actions).Ok?
    ensures CatalogPath in FilesAfter(repo, plan) && FilesAfter(repo, plan)[CatalogPath] == CatalogFile(plan.tenants)
  {
    hide Execute;
    forall a <- plan.actions ensures !About(a, CatalogPath) {
    }
    NobodyDecides(repo, plan.actions, CatalogPath);
  }

  lemma PathAfter(repo: Repository, plan: Plan, p: Path)
    requires Execute(repo, plan.actions).Ok? && p != CatalogPath
    ensures var done := Execute(repo, plan.actions).value;
            if p in done then
              (if done[p].content.Some? then p in FilesAfter(repo, plan) && FilesAfter(repo, plan)[p] == done[p].content.value
               else p !in FilesAfter(repo, plan))
            else (p in FilesAfter(repo, plan) <==> p in repo) && (p in repo ==> FilesAfter(repo, plan)[p] == repo[p])
  {
    hide Execute;
  }

  lemma UntouchedAfter(repo: Repository, plan: Plan, p: Path)
    requires Execute(repo, plan.actions).Ok? && p != CatalogPath && forall a <- plan.actions :: !About(a, p)
    ensures (p in FilesAfter(repo, plan) <==> p in repo) && (p in repo ==> FilesAfter(repo, plan)[p] == repo[p])
  {
    hide Execute, FilesAfter, About;
    NobodyDecides(repo, plan.actions, p);
    PathAfter(repo, plan, p);
  }

  lemma KeptLeafAfter(repo: Repository, plan: Plan, leaf: Leaf)
    requires Execute(repo, plan.actions).Ok? && !Touched(plan.actions, leaf) && Manifest(leaf) in repo
    ensures Manifest(leaf) in FilesAfter(repo, plan) && FilesAfter(repo, plan)[Manifest(leaf)] == repo[Manifest(leaf)]
  {
    hide Execute, FilesAfter;
    UntouchedAfter(repo, plan, Manifest(leaf));
  }

  lemma WrittenLeafAfter(repo: Repository, plan: Plan, leaf: Leaf, file: File)
    requires Execute(repo, plan.actions).Ok? && Unanimous(plan.actions) && WriteLeaf(leaf, file) in plan.actions
    ensures Manifest(leaf) in FilesAfter(repo, plan) && FilesAfter(repo, plan)[Manifest(leaf)] == file
  {
    hide Execute, FilesAfter, Unanimous, ValidName;
    OnlyAction(plan.actions, WriteLeaf(leaf, file), Manifest(leaf));
    OneDecides(repo, plan.actions, WriteLeaf(leaf, file), Manifest(leaf));
    PathAfter(repo, plan, Manifest(leaf));
  }

  lemma MarkedLeafAfter(repo: Repository, plan: Plan, leaf: Leaf, id: string, force: bool)
    requires Execute(repo, plan.actions).Ok? && Unanimous(plan.actions) && Approve(leaf, id, force) in plan.actions
    ensures Manifest(leaf) in repo && repo[Manifest(leaf)].ManifestFile?
    ensures Manifest(leaf) in FilesAfter(repo, plan) && FilesAfter(repo, plan)[Manifest(leaf)] == Marked(repo[Manifest(leaf)], id, force)
  {
    hide Execute, FilesAfter, Unanimous, ValidName, Marked;
    OnlyAction(plan.actions, Approve(leaf, id, force), Manifest(leaf));
    OneDecides(repo, plan.actions, Approve(leaf, id, force), Manifest(leaf));
    PathAfter(repo, plan, Manifest(leaf));
  }

  lemma KeptSourceAfter(repo: Repository, plan: Plan, service: string)
    requires Execute(repo, plan.actions).Ok? && !TouchedSource(plan.actions, service) && SourceExists(repo.Keys, service)
    ensures SourceExists(FilesAfter(repo, plan).Keys, service)
  {
    hide Execute, FilesAfter;
    var p :| p in repo && p.Source? && p.service == service;
    UntouchedAfter(repo, plan, p);
  }

  /** Writing any source file of a service leaves its directory in place. */
  lemma WrittenSourceAfter(repo: Repository, plan: Plan, a: Action, s: Service)
    requires Execute(repo, plan.actions).Ok? && Unanimous(plan.actions) && a in plan.actions && (a == WriteSource(s) || a == WriteVersion(s))
    ensures SourceExists(FilesAfter(repo, plan).Keys, s.path)
  {
    hide Execute, FilesAfter, Unanimous, SourceContent, AllAllowed;
    var p := Source(s.path, VersionFile);
    OnlyAction(plan.actions, a, p);
    OneDecides(repo, plan.actions, a, p);
    PathAfter(repo, plan, p);
    assert VersionFile in SourceFiles(s.template);
    SetFilesAt(repo, s, SourceFiles(s.template), p);
    SetFilesAt(repo, s, [VersionFile, Descriptor], p);
    assert p in FilesAfter(repo, plan).Keys;
  }
}
