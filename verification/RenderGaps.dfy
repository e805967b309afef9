/** The gaps of the renderer are hit: every well-formed catalog is that of some healthy
    repository, and for each gap there is one in which a request goes through and
    leaves a catalog that does not load. */
module RenderGaps {
  import opened Wrappers
  import opened Catalog
  import opened CatalogValidation
  import opened CatalogFacts
  import opened ChangePlan
  import opened ChangeSets
  import opened OverlayFacts
  import opened RenderSafety
  import opened ServiceAccounting
  import opened CatalogPreserved
  import opened ServiceSoundness
  import opened RenderRuns
  import opened ServiceLifecycle

  // ---------------------------------------------------------------- a repository for a catalog

  const NOTHING := Parameters("", "", [], [], "", "", "", "", "", 0, 0, 0, "", 0, NO_SIZE, "", "", "", "", "", false, NoTemplate, Malformed(""), false, false)
  const STORAGE := Storage(Some(Size("1Gi", Some(ONE_GIBIBYTE))), LOCAL_PATH)

  function Leaves(tenants: seq<Tenant>): set<Leaf> {
    (set t | t in tenants :: TeamLeaf(t.name)) + (set t, e | t in tenants && e in t.applications :: AppLeaf(e.name))
    + (set t, e | t in tenants && e in t.databases :: DatabaseLeaf(e.name))
  }

  lemma LeavesAreListed(tenants: seq<Tenant>, leaf: Leaf)
    ensures leaf in Leaves(tenants) <==> HasLeaf(tenants, leaf)
  {
  }

  function Plain(leaf: Leaf): File {
    match leaf
    case TeamLeaf(name) => TeamFile(name, NOTHING)
    case AppLeaf(name) => AppFile("", NOTHING.(name := name), true)
    case DatabaseLeaf(name) => DatabaseManifest("", NOTHING.(name := name), STORAGE, None)
  }

  ghost predicate Retires(tenants: seq<Tenant>, leaf: Leaf, id: string) { CatalogLists(tenants, Listed(leaf, Retiring, id)) }

  /** The manifest of a leaf, with the mark of the request it retires under. */
  ghost function LeafFile(tenants: seq<Tenant>, leaf: Leaf): File {
    if exists id :: Retires(tenants, leaf, id) then
      var id :| Retires(tenants, leaf, id);
      Marked(Plain(leaf), id, false)
    else Plain(leaf)
  }

  function SourcePaths(tenants: seq<Tenant>): set<Path> {
    set t, s, f | t in tenants && s in t.services && f in SourceFiles(s.template) :: Source(s.path, f)
  }

  function LeafPaths(tenants: seq<Tenant>): set<Path> {
    (set leaf | leaf in Leaves(tenants) :: Manifest(leaf)) + (set leaf | leaf in Leaves(tenants) :: Kustomization(leaf))
  }

  ghost function FileAt(tenants: seq<Tenant>, p: Path): File {
    match p
    case CatalogPath => CatalogFile(tenants)
    case Manifest(leaf) => LeafFile(tenants, leaf)
    case Kustomization(leaf) => KustomizationFile(leaf)
    case _ => Text("")
  }

  /** The generated files of everything the catalog lists, and nothing else. */
  ghost function Furnish(tenants: seq<Tenant>): Repository {
    map p | p in {CatalogPath, Golden(false), Golden(true)} + LeafPaths(tenants) + SourcePaths(tenants) :: FileAt(tenants, p)
  }

  ghost predicate WellFormed(tenants: seq<Tenant>) { UniqueNames(AllNames(tenants)) && forall t <- tenants :: Shape(t) }

  lemma FurnishedPaths(tenants: seq<Tenant>, p: Path)
    ensures p in Furnish(tenants) <==> p == CatalogPath || p.Golden? || ((p.Manifest? || p.Kustomization?) && HasLeaf(tenants, p.leaf))
                                       || (p.Source? && exists t <- tenants :: exists s <- t.services :: s.path == p.service && p.file in SourceFiles(s.template))
    ensures p in Furnish(tenants) ==> Furnish(tenants)[p] == FileAt(tenants, p)
  {
    hide HasLeaf, Leaves, SourceFiles, FileAt;
    if p.Manifest? || p.Kustomization? {
      LeavesAreListed(tenants, p.leaf);
    }
    assert p == Golden(false) || p == Golden(true) <==> p.Golden?;
  }

  lemma PlainIsFresh(leaf: Leaf)
    ensures FreshFile(Plain(leaf)) && (leaf.DatabaseLeaf? ==> Stored(Plain(leaf)))
  {
    hide Normalize;
  }

  lemma FurnishedAgrees(tenants: seq<Tenant>, l: Listed)
    requires WellFormed(tenants) && CatalogLists(tenants, l)
    ensures LeafAgrees(Furnish(tenants), l) && (l.leaf.DatabaseLeaf? ==> Stored(Furnish(tenants)[Manifest(l.leaf)]))
  {
    hide UniqueNames, AllNames, Shape, Furnish, CatalogLists, HasLeaf, Plain, Separate, Stored;
    UniqueIsSeparate(tenants);
    ListingIsLeaf(tenants, l);
    FurnishedPaths(tenants, Manifest(l.leaf));
    PlainIsFresh(l.leaf);
    if exists id :: Retires(tenants, l.leaf, id) {
      var id :| Retires(tenants, l.leaf, id) && LeafFile(tenants, l.leaf) == Marked(Plain(l.leaf), id, false);
      RenderSafety.ListedOnce(tenants, l, Listed(l.leaf, Retiring, id));
      MarkKeepsStorage(Plain(l.leaf), id, false);
      assert Furnish(tenants)[Manifest(l.leaf)] == Marked(Plain(l.leaf), id, false);
      assert l.lifecycle == Retiring && l.request == id;
      assert Manifest(l.leaf) in Furnish(tenants);
    } else {
      ListedLives(tenants, l);
      assert l.lifecycle.Retiring? ==> Retires(tenants, l.leaf, l.request);
    }
  }

  lemma ListingIsLeaf(tenants: seq<Tenant>, l: Listed)
    requires CatalogLists(tenants, l)
    ensures HasLeaf(tenants, l.leaf)
  {
    hide TenantHas, TenantLists;
    var t :| t in tenants && TenantLists(t, l);
    ListsIsHas(t, l);
  }

  lemma ListedLives(tenants: seq<Tenant>, l: Listed)
    requires CatalogLists(tenants, l) && forall t <- tenants :: Shape(t)
    ensures !l.lifecycle.Scaffolded?
  {
    hide ValidName, OwnersOk, IsUuid;
  }

  /** Every well-formed catalog is the catalog of a healthy repository. */
  lemma FurnishedIsHealthy(tenants: seq<Tenant>)
    requires WellFormed(tenants)
    ensures Healthy(Furnish(tenants)) && TenantsOf(Furnish(tenants)) == tenants
  {
    hide UniqueNames, AllNames, Shape, Furnish, CatalogLists, Stored, TenantOk;
    var repo := Furnish(tenants);
    FurnishedPaths(tenants, CatalogPath);
    forall l | CatalogLists(tenants, l) ensures LeafAgrees(repo, l) && (l.leaf.DatabaseLeaf? ==> Stored(repo[Manifest(l.leaf)])) {
      FurnishedAgrees(tenants, l);
    }
    forall t | t in tenants ensures TenantOk(repo.Keys, t) {
      forall s | s in t.services ensures SourceExists(repo.Keys, s.path) {
        VersionIsListed(s.template);
        FurnishedPaths(tenants, Source(s.path, VersionFile));
        assert Source(s.path, VersionFile) in repo.Keys;
      }
      DirectoriesExist(repo, tenants, t);
    }
  }

  // ---------------------------------------------------------------- actions in it

  lemma LeafGoes(tenants: seq<Tenant>, leaf: Leaf)
    requires HasLeaf(tenants, leaf) && ValidName(leaf.name, 63)
    ensures Blocked(Furnish(tenants), DropLeaf(leaf)).None?
  {
    hide Furnish, HasLeaf, ValidName, FileAt, SourceFiles;
    FurnishedPaths(tenants, Manifest(leaf));
    FurnishedPaths(tenants, Kustomization(leaf));
    assert Manifest(leaf) in Furnish(tenants) && InLeaf(Manifest(leaf), leaf);
    forall p | p in Furnish(tenants) && InLeaf(p, leaf) ensures !p.Extra? {
      FurnishedPaths(tenants, p);
    }
  }

  lemma AllListedFiles(template: Template)
    ensures forall f <- SourceFiles(template) :: !f.Unlisted?
  {
  }

  lemma SourceIsWritten(tenants: seq<Tenant>, s: Service)
    requires ValidName(s.path, 48)
    ensures Blocked(Furnish(tenants), WriteSource(s)).None?
    ensures Blocked(Furnish(tenants), WriteVersion(s)).None?
  {
    hide Furnish, HasLeaf, ValidName, FileAt, SourceFiles;
    AllListedFiles(s.template);
    FurnishedPaths(tenants, Golden(false));
    FurnishedPaths(tenants, Golden(true));
  }

  lemma SourceGoes(tenants: seq<Tenant>, t: Tenant, s: Service)
    requires t in tenants && s in t.services && ValidName(s.path, 48)
    requires forall u <- tenants, x <- u.services :: x.path == s.path ==> x == s
    ensures Blocked(Furnish(tenants), DropSource(s)).None?
  {
    hide Furnish, HasLeaf, ValidName, FileAt, SourceFiles;
    AllListedFiles(s.template);
    FurnishedPaths(tenants, Golden(false));
    FurnishedPaths(tenants, Golden(true));
    forall f | f in SourceFiles(s.template) ensures Source(s.path, f) in Furnish(tenants) {
      FurnishedPaths(tenants, Source(s.path, f));
    }
    forall p | p in Furnish(tenants) && p.Source? && p.service == s.path ensures p.file in SourceFiles(s.template) {
      FurnishedPaths(tenants, p);
    }
  }

  /** The request goes through, and the catalog it leaves does not load. */
  ghost predicate Breaks(repo: Repository, q: Request) {
    Healthy(repo) && RequestOk(q) && Rendered(repo, q).Ok? && !Loads(View(repo, Rendered(repo, q).value))
  }

  lemma GapIsHit(tenants: seq<Tenant>, q: Request)
    requires WellFormed(tenants) && RequestOk(q) && !GapFree(tenants, q)
    requires var plan := PlanOf(Furnish(tenants), tenants, q); Clear(Furnish(tenants), plan.actions) && plan.tenants != tenants
    ensures Breaks(Furnish(tenants), q)
  {
    hide Execute, RequestOk, PlanOf, GapFree, Clear, Consistent, Valid, Furnish, WellFormed;
    var repo, plan := Furnish(tenants), PlanOf(Furnish(tenants), tenants, q);
    FurnishedIsHealthy(tenants);
    ClearExecutes(repo, plan.actions);
    var changes := Execute(repo, plan.actions).value + SetChange(repo, CatalogPath, CatalogFile(plan.tenants));
    assert CatalogPath in changes;
    assert Rendered(repo, q) == Ok(changes);
    assert View(repo, changes) == FilesAfter(repo, plan);
    OperationIsSafe(repo, tenants, q);
    CatalogAfter(repo, plan);
  }

  // ---------------------------------------------------------------- four catalogs

  function Team(name: string, applications: seq<Entry>, databases: seq<Entry>, services: seq<Service>): Tenant {
    Tenant(name, TeamLeaf(name), ["ops"], Active, "", applications, databases, services)
  }

  lemma NamesAreValid()
    ensures ValidName("shop", 58) && ValidName("desk", 58) && ValidName("page", 48) && ValidName("page", 63) && ValidName("web", 63) && OwnersOk(["ops"])
  {
    assert "ops"[0] == 'o' && "ops"[1] == 'p' && "ops"[2] == 's';
    assert OwnerOk("ops");
  }

  lemma TwoTeams(a: Tenant, b: Tenant)
    ensures AllNames([a, b]) == Join(TenantNames(a), TenantNames(b))
  {
    hide TenantNames;
    assert [a, b] == [a] + [b];
    AllNamesAppend([a], [b]);
    AllNamesOne(a);
    AllNamesOne(b);
  }

  lemma NamesOfNone<T>(key: T -> string)
    ensures NamesOf([], key) == multiset{}
  {
  }

  const PAGE_DATABASE := Entry("page", DatabaseLeaf("page"), "", Active, "")
  const PAGE_APPLICATION := Entry("page", AppLeaf("page"), "", Active, "")
  const PAGE_SERVICE := Service("page", "page", ReactStatic, Version(0, 1, 0), ["page"], "", false, false, Scaffolded, "")

  /** The database of the other team has the name of the new service. */
  const DATABASE_ELSEWHERE := [Team("shop", [], [PAGE_DATABASE], []), Team("desk", [], [], [])]

  function ScaffoldPage(id: string): Request {
    Request(id, ServiceScaffold, NOTHING.(team := "desk", name := "page", template := FullStack, version := Version(0, 1, 0), withDatabase := true), true)
  }

  lemma AScaffoldBreaks(id: string)
    requires IsUuid(id)
    ensures Breaks(Furnish(DATABASE_ELSEWHERE), ScaffoldPage(id))
  {
    hide IsUuid, ValidName, OwnersOk, Furnish, Blocked, UniqueNames, AllNames, PlanOf, WithService, ScaffoldActions, Clear, Breaks, Shape, WellFormed;
    var tenants, q := DATABASE_ELSEWHERE, ScaffoldPage(id);
    NamesAreValid();
    DatabaseElsewhere();
    assert AnyDatabase(tenants, "page") by { assert PAGE_DATABASE in tenants[0].databases; }
    ScaffoldPlanned(Furnish(tenants), id);
    ScaffoldClears(tenants, q.p);
    ServiceAdded(tenants[1], q.p);
    assert tenants[1 := WithService(tenants[1], q.p)][1] != tenants[1];
    GapIsHit(tenants, q);
  }

  lemma ServiceAdded(t: Tenant, p: Parameters)
    ensures |WithService(t, p).services| == |t.services| + 1
  {
    hide SortBy, AddEntry;
  }

  lemma ScaffoldClears(tenants: seq<Tenant>, p: Parameters)
    requires ValidName(p.name, 48)
    ensures Clear(Furnish(tenants), ScaffoldActions(p))
  {
    hide Furnish, Blocked, DatabaseManifest, ValidName;
    SourceIsWritten(tenants, NewService(p));
    ShorterIsValid(p.name);
    if p.withDatabase {
      LeafIsWritten(Furnish(tenants), DatabaseLeaf(p.name), ScaffoldActions(p)[0].manifest);
    }
  }

  lemma ShorterIsValid(name: string)
    requires ValidName(name, 48)
    ensures ValidName(name, 63)
  {
  }

  lemma ScaffoldPlanned(repo: Repository, id: string)
    ensures var p := ScaffoldPage(id).p;
            PlanOf(repo, DATABASE_ELSEWHERE, ScaffoldPage(id)) == Plan(DATABASE_ELSEWHERE[1 := WithService(DATABASE_ELSEWHERE[1], p)], ScaffoldActions(p))
  {
    hide WithService, ScaffoldActions, SortBy;
    var tenants, p := DATABASE_ELSEWHERE, ScaffoldPage(id).p;
    assert Index(tenants, TenantName, "desk") == 1;
    assert [] + ScaffoldActions(p) == ScaffoldActions(p);
  }

  lemma LeafIsWritten(repo: Repository, leaf: Leaf, file: File)
    requires ValidName(leaf.name, 63)
    ensures Blocked(repo, WriteLeaf(leaf, file)).None?
  {
  }

  lemma DatabaseElsewhere()
    ensures WellFormed(DATABASE_ELSEWHERE)
  {
    hide ValidName, OwnersOk;
    NamesAreValid();
    TwoTeams(DATABASE_ELSEWHERE[0], DATABASE_ELSEWHERE[1]);
    NamesOne(PAGE_DATABASE, EntryName);
    NamesOfNone(EntryName);
    NamesOfNone(ServiceName);
  }

  /** An application of the other team has the name of a component. */
  const APPLICATION_ELSEWHERE := [Team("shop", [PAGE_APPLICATION], [], []), Team("desk", [], [], [PAGE_SERVICE])]

  function ActivatePage(id: string): Request {
    Request(id, ServiceActivate, NOTHING.(team := "desk", name := "page", version := Version(0, 1, 1)), true)
  }

  lemma AnActivationBreaks(id: string)
    requires IsUuid(id)
    ensures Breaks(Furnish(APPLICATION_ELSEWHERE), ActivatePage(id))
  {
    hide IsUuid, ValidName, OwnersOk, Furnish, Blocked, UniqueNames, AllNames, PlanOf, Breaks, WellFormed, Shape, ComponentFile;
    var tenants, q := APPLICATION_ELSEWHERE, ActivatePage(id);
    NamesAreValid();
    ApplicationElsewhere();
    assert Index(tenants, TenantName, "desk") == 1 && Index(tenants[1].services, ServiceName, "page") == 0;
    assert HasEntry(tenants[0].applications, "page") by { assert PAGE_APPLICATION in tenants[0].applications; }
    assert "page" in tenants[1].services[0].components;
    assert !ComponentsFresh(tenants, 1, tenants[1].services[0].components);
    PageActivated(Furnish(tenants), id);
    LeafIsWritten(Furnish(tenants), AppLeaf("page"), ComponentFile("desk", NewerPage(), "page"));
    SourceIsWritten(tenants, NewerPage().(lifecycle := Active));
    GapIsHit(tenants, q);
  }

  function NewerPage(): Service { PAGE_SERVICE.(version := Version(0, 1, 1)) }

  lemma PageActivated(repo: Repository, id: string)
    ensures var plan := PlanOf(repo, APPLICATION_ELSEWHERE, ActivatePage(id));
            plan.actions == [WriteLeaf(AppLeaf("page"), ComponentFile("desk", NewerPage(), "page")), WriteVersion(NewerPage().(lifecycle := Active))]
            && plan.tenants != APPLICATION_ELSEWHERE
  {
    hide ValidName, SortBy, ComponentFile;
    var tenants, s := APPLICATION_ELSEWHERE, NewerPage();
    assert Index(tenants, TenantName, "desk") == 1 && Index(tenants[1].services, ServiceName, "page") == 0;
    assert ["page"][..0] == [];
    assert ComponentActions("desk", [], s, ["page"]) == [WriteLeaf(AppLeaf("page"), ComponentFile("desk", s, "page"))];
    assert PlanOf(repo, tenants, ActivatePage(id)).tenants[1].services[0] == s.(lifecycle := Active);
  }

  lemma ApplicationElsewhere()
    ensures WellFormed(APPLICATION_ELSEWHERE)
  {
    hide ValidName, OwnersOk;
    NamesAreValid();
    TwoTeams(APPLICATION_ELSEWHERE[0], APPLICATION_ELSEWHERE[1]);
    NamesOne(PAGE_APPLICATION, EntryName);
    NamesOne(PAGE_SERVICE, ServiceName);
    NamesOfNone(EntryName);
    NamesOfNone(ServiceName);
  }

  /** An application that retires with its database is still there. */
  function StillReferring(id: string): seq<Tenant> {
    [Team("shop", [Entry("web", AppLeaf("web"), "page", Retiring, id)], [Retired(PAGE_DATABASE, id)], [])]
  }

  function FinalizePageDatabase(id: string): Request {
    Request(id, DatabaseFinalize, NOTHING.(team := "shop", name := "page", deletionRequest := id), true)
  }

  lemma ADatabaseFinalizationBreaks(id: string)
    requires IsUuid(id)
    ensures Breaks(Furnish(StillReferring(id)), FinalizePageDatabase(id))
  {
    hide IsUuid, ValidName, OwnersOk, Furnish, Blocked, UniqueNames, AllNames, Breaks, WellFormed, Shape;
    var tenants, q := StillReferring(id), FinalizePageDatabase(id);
    NamesAreValid();
    StillReferringIsWellFormed(id);
    assert Index(tenants, TenantName, "shop") == 0 && Index(tenants[0].databases, EntryName, "page") == 0;
    assert tenants[0].applications[0] in tenants[0].applications;
    assert HasEntry(tenants[0].databases, "page") by { assert tenants[0].databases[0] in tenants[0].databases; }
    assert TenantHas(tenants[0], DatabaseLeaf("page")) && tenants[0] in tenants;
    LeafGoes(tenants, DatabaseLeaf("page"));
    var plan := PlanOf(Furnish(tenants), tenants, q);
    assert plan.actions == [DropLeaf(DatabaseLeaf("page"))] && plan.tenants[0].databases == [];
    GapIsHit(tenants, q);
  }

  lemma StillReferringIsWellFormed(id: string)
    requires IsUuid(id)
    ensures WellFormed(StillReferring(id))
  {
    hide ValidName, OwnersOk, IsUuid;
    NamesAreValid();
    var t := StillReferring(id)[0];
    AllNamesOne(t);
    NamesOne(t.applications[0], EntryName);
    NamesOne(t.databases[0], EntryName);
    NamesOfNone(ServiceName);
    assert HasEntry(t.databases, "page") by { assert t.databases[0] in t.databases; }
  }

  function RetiringPage(id: string): Service {
    Service("page", "page", FullStack, Version(0, 1, 0), TemplateComponents("page", FullStack), "page", false, true, Retiring, id)
  }

  /** Another application refers to the database the service takes with it. */
  function AlsoReferring(id: string): seq<Tenant> {
    [Team("shop", [Entry("web", AppLeaf("web"), "page", Active, "")], [Retired(PAGE_DATABASE, id)], [RetiringPage(id)])]
  }

  function FinalizePage(id: string): Request {
    Request(id, ServiceFinalize, NOTHING.(team := "shop", name := "page", deletionRequest := id), true)
  }

  lemma AServiceFinalizationBreaks(id: string)
    requires IsUuid(id)
    ensures Breaks(Furnish(AlsoReferring(id)), FinalizePage(id))
  {
    hide IsUuid, ValidName, OwnersOk, Furnish, Blocked, UniqueNames, AllNames, PlanOf, Breaks, WellFormed, Shape;
    var tenants, q := AlsoReferring(id), FinalizePage(id);
    NamesAreValid();
    AlsoReferringIsWellFormed(id);
    var t, s := tenants[0], RetiringPage(id);
    assert Index(tenants, TenantName, "shop") == 0 && Index(t.services, ServiceName, "page") == 0;
    assert OwnedDatabase(t, s) == 0 && t.applications[0] in t.applications && t.services[0] in t.services;
    assert HasEntry(t.databases, "page") by { assert t.databases[0] in t.databases; }
    assert TenantHas(t, DatabaseLeaf("page")) && t in tenants;
    LeafGoes(tenants, DatabaseLeaf("page"));
    SourceGoes(tenants, t, s);
    PageFinalized(Furnish(tenants), id);
    GapIsHit(tenants, q);
  }

  lemma PageFinalized(repo: Repository, id: string)
    ensures var plan := PlanOf(repo, AlsoReferring(id), FinalizePage(id));
            plan.actions == [DropLeaf(DatabaseLeaf("page")), DropSource(RetiringPage(id))] && plan.tenants != AlsoReferring(id)
  {
    hide IsUuid, ValidName, DropNamed;
    var tenants, q := AlsoReferring(id), FinalizePage(id);
    var t := tenants[0];
    assert Index(tenants, TenantName, "shop") == 0 && Index(t.services, ServiceName, "page") == 0 && OwnedDatabase(t, RetiringPage(id)) == 0;
    NothingNamed(t.applications, q.p);
    assert PlanOf(repo, tenants, q).tenants[0].services == [];
  }

  lemma NothingNamed(entries: seq<Entry>, p: Parameters)
    requires |entries| == 1 && entries[0].name == "web"
    ensures DropNamed(entries, TemplateComponents("page", FullStack), p) == []
  {
    var names := TemplateComponents("page", FullStack);
    assert "page" + "-api" == "page-api";
    assert names == ["page", "page-api"] && names[..1] == ["page"] && names[..1][..0] == [];
    assert Index(entries, EntryName, "page") == -1 && Index(entries, EntryName, "page-api") == -1;
    assert DropNamed(entries, names[..1], p) == [];
  }

  lemma AlsoReferringIsWellFormed(id: string)
    requires IsUuid(id)
    ensures WellFormed(AlsoReferring(id))
  {
    hide ValidName, OwnersOk, IsUuid;
    NamesAreValid();
    var t := AlsoReferring(id)[0];
    AllNamesOne(t);
    NamesOne(t.applications[0], EntryName);
    NamesOne(t.databases[0], EntryName);
    NamesOne(t.services[0], ServiceName);
    assert HasEntry(t.databases, "page") by { assert t.databases[0] in t.databases; }
  }
}
