/** What a typed change request does: the catalog it leaves and the actions on
    files it takes, in order. Every action reads the repository, not the overlay. */
module ChangePlan {
  import opened Wrappers
  import opened Catalog

  datatype ExitCode = Usage | Conflict | NotFound | Internal

  datatype Operation =
    | TeamCreate | TeamUpdate | TeamDelete | TeamFinalize
    | AppCreate | AppUpdate | AppDelete | AppFinalize
    | DatabaseCreate | DatabaseRestore | DatabaseUpdate | DatabaseDelete | DatabaseFinalize
    | ServiceScaffold | ServiceActivate | ServiceRetire | ServiceFinalize

  datatype Parameters = Parameters(team: string, name: string, owners: seq<string>, repositories: seq<string>, cpu: string, memory: string,
                                   owner: string, image: string, tag: string, port: int, min: int, max: int, databaseRef: string,
                                   instances: int, size: Size, schedule: string, retention: string, source: string, target: string,
                                   deletionRequest: string, force: bool, template: Template, version: Version,
                                   createTeam: bool, withDatabase: bool)

  /** `wellFormed` stands for the request checks that the model does not refine. */
  datatype Request = Request(id: string, operation: Operation, p: Parameters, wellFormed: bool)

  // ---------------------------------------------------------------- overlay

  datatype FileAction = Create | Update | Delete
  datatype FileChange = FileChange(action: FileAction, content: Option<File>, before: Option<File>)
  type Changes = map<Path, FileChange>

  /** The files after a set of changes. */
  function View(repo: Repository, changes: Changes): Repository {
    map p | p in repo.Keys + changes.Keys && (p in changes ==> changes[p].content.Some?) ::
      if p in changes then changes[p].content.value else repo[p]
  }

  /** Nothing is recorded when the repository already has the content. */
  function SetChange(repo: Repository, path: Path, file: File): Changes {
    if path in repo && repo[path] == file then map[]
    else map[path := FileChange(if path in repo then Update else Create, Some(file), if path in repo then Some(repo[path]) else None)]
  }

  function RemoveChange(repo: Repository, path: Path): Changes
    requires path in repo
  {
    map[path := FileChange(Delete, None, Some(repo[path]))]
  }

  /** The paths a rendered change may touch. */
  predicate Allowed(path: Path) {
    match path
    case CatalogPath => true
    case Manifest(leaf) => ValidName(leaf.name, 63)
    case Kustomization(leaf) => ValidName(leaf.name, 63)
    case Source(service, file) => ValidName(service, 48) && !file.Unlisted?
    case _ => false
  }

  // ---------------------------------------------------------------- generated files

  const PRUNE_DISABLED := "Prune=false"
  const SYNC_WAVE := "argocd.argoproj.io/sync-wave"
  const SERVICE_IMAGES := "ghcr.io/saadabdullaah/steadystate-services"

  function Fresh(name: string, namespace: string, wave: string): Metadata {
    Metadata(name, namespace, Annotations(Some(PRUNE_DISABLED), None, None, map[SYNC_WAVE := wave]))
  }

  function StringKey(s: string): string { s }

  function Normalize(values: seq<string>): seq<string> { SortBy(values, StringKey) }

  function TeamFile(name: string, p: Parameters): File {
    ManifestFile(Fresh(name, "", "-1"), TeamSpec(Normalize(p.owners), p.cpu, p.memory, Normalize(p.repositories)))
  }

  function AppFile(team: string, p: Parameters, networkIsolation: bool): File {
    ManifestFile(Fresh(p.name, "team-" + team, "1"), AppSpec(p.owner, p.image, p.tag, p.port, p.min, p.max, networkIsolation))
  }

  function DatabaseManifest(team: string, p: Parameters, storage: Storage, recovery: Option<Recovery>): File {
    ManifestFile(Fresh(p.name, "team-" + team, "0"), DatabaseSpec(p.instances, Some(storage), p.schedule, p.retention, recovery))
  }

  const LOCAL_PATH := "local-path"

  /** A deletion mark replaces the protection against pruning. */
  function Marked(file: File, id: string, force: bool): File
    requires file.ManifestFile?
  {
    var a := file.metadata.annotations;
    file.(metadata := file.metadata.(annotations :=
      a.(syncOptions := None, deletionRequest := Some(id), forceDelete := if force then Some("true") else a.forceDelete)))
  }

  const API_FILES := [ApiDockerfile, ApiMain, ApiTest]
  const WEB_FILES := [WebDockerfile, WebIndex, WebLock, WebPackage, WebServer, WebServerTest, WebStatic, WebMain, WebStyle, WebTest, WebTsconfig, WebVite]

  predicate UsesGo(template: Template) { template.GoApi? || template.FullStack? }
  predicate UsesWeb(template: Template) { template.ReactStatic? || template.FullStack? }

  /** The generated files of a template, in path order. */
  function SourceFiles(template: Template): seq<SourceFile> {
    [Readme, VersionFile] + (if UsesGo(template) then API_FILES else []) + [Descriptor] + (if UsesWeb(template) then WEB_FILES else [])
  }

  function GoldenText(repo: Repository, test: bool): string {
    if Golden(test) in repo && repo[Golden(test)].Text? then repo[Golden(test)].content else ""
  }

  predicate GoldenReadable(repo: Repository, template: Template) {
    UsesGo(template) ==> Golden(false) in repo && Golden(true) in repo
  }

  function SourceContent(repo: Repository, s: Service, f: SourceFile): File {
    SourceText(s.name, s.template, if f.VersionFile? || f.Descriptor? then Some(s.version) else None, f,
               if f.ApiMain? then Some(GoldenText(repo, false)) else if f.ApiTest? then Some(GoldenText(repo, true)) else None)
  }

  // ---------------------------------------------------------------- actions

  datatype Action =
    | Fail(code: ExitCode)
    | WriteLeaf(leaf: Leaf, manifest: File)
    | Approve(leaf: Leaf, id: string, force: bool)
    | DropLeaf(leaf: Leaf)
    | WriteSource(service: Service)
    | WriteVersion(service: Service)
    | DropSource(service: Service)

  function SetFiles(repo: Repository, s: Service, files: seq<SourceFile>): Changes {
    if files == [] then map[]
    else
      var f := files[|files| - 1];
      SetFiles(repo, s, files[..|files| - 1]) + SetChange(repo, Source(s.path, f), SourceContent(repo, s, f))
  }

  predicate AllPresent(repo: Repository, service: string, files: seq<SourceFile>) {
    forall f <- files :: Source(service, f) in repo
  }

  function RemoveFiles(repo: Repository, service: string, files: seq<SourceFile>): Changes
    requires AllPresent(repo, service, files)
  {
    if files == [] then map[]
    else RemoveFiles(repo, service, files[..|files| - 1]) + RemoveChange(repo, Source(service, files[|files| - 1]))
  }

  predicate AllAllowed(service: string, files: seq<SourceFile>) { forall f <- files :: Allowed(Source(service, f)) }

  /** The source directory holds exactly the generated files. */
  predicate ExactSource(repo: Repository, service: string, files: seq<SourceFile>) {
    AllPresent(repo, service, files) && forall p <- repo :: p.Source? && p.service == service ==> p.file in files
  }

  predicate OnlyGenerated(repo: Repository, leaf: Leaf) { forall p <- repo :: InLeaf(p, leaf) ==> !p.Extra? }

  /** Why an action cannot be taken. */
  function Blocked(repo: Repository, a: Action): Option<ExitCode> {
    match a
    case Fail(code) => Some(code)
    case WriteLeaf(leaf, _) => if !Allowed(Manifest(leaf)) then Some(Usage) else None
    case Approve(leaf, _, _) =>
      if !Allowed(Manifest(leaf)) then Some(Usage)
      else if Manifest(leaf) !in repo then Some(NotFound)
      else if !repo[Manifest(leaf)].ManifestFile? then Some(Internal) else None
    case DropLeaf(leaf) =>
      if !Allowed(Manifest(leaf)) then Some(Usage)
      else if !LeafExists(repo.Keys, leaf) then Some(NotFound)
      else if !OnlyGenerated(repo, leaf) then Some(Conflict)
      else if Manifest(leaf) !in repo || Kustomization(leaf) !in repo then Some(NotFound) else None
    case WriteSource(s) =>
      if !GoldenReadable(repo, s.template) then Some(Internal)
      else if !AllAllowed(s.path, SourceFiles(s.template)) then Some(Usage) else None
    case WriteVersion(s) => if !AllAllowed(s.path, [VersionFile, Descriptor]) then Some(Usage) else None
    case DropSource(s) =>
      if !GoldenReadable(repo, s.template) then Some(Internal)
      else if !ExactSource(repo, s.path, SourceFiles(s.template)) then Some(Conflict)
      else if !AllAllowed(s.path, SourceFiles(s.template)) then Some(Usage) else None
  }

  /** The changes an action records. */
  function Effect(repo: Repository, a: Action): Changes
    requires Blocked(repo, a).None?
  {
    match a
    case WriteLeaf(leaf, manifest) => SetChange(repo, Manifest(leaf), manifest) + SetChange(repo, Kustomization(leaf), KustomizationFile(leaf))
    case Approve(leaf, id, force) => SetChange(repo, Manifest(leaf), Marked(repo[Manifest(leaf)], id, force))
    case DropLeaf(leaf) => RemoveChange(repo, Manifest(leaf)) + RemoveChange(repo, Kustomization(leaf))
    case WriteSource(s) => SetFiles(repo, s, SourceFiles(s.template))
    case WriteVersion(s) => SetFiles(repo, s, [VersionFile, Descriptor])
    case DropSource(s) => RemoveFiles(repo, s.path, SourceFiles(s.template))
  }

  /** The overlay after all actions, or the first reason to stop. */
  function Execute(repo: Repository, actions: seq<Action>): Result<Changes, ExitCode> {
    if actions == [] then Ok(map[])
    else
      var done := Execute(repo, actions[..|actions| - 1]);
      var last := actions[|actions| - 1];
      if done.Err? then done
      else if Blocked(repo, last).Some? then Err(Blocked(repo, last).value)
      else Ok(done.value + Effect(repo, last))
  }

  // ---------------------------------------------------------------- plans

  datatype Plan = Plan(tenants: seq<Tenant>, actions: seq<Action>)

  function Refuse(tenants: seq<Tenant>, code: ExitCode): Plan { Plan(tenants, [Fail(code)]) }

  function Retired(e: Entry, id: string): Entry { e.(lifecycle := Retiring, request := id) }
  function RetiredService(s: Service, id: string): Service { s.(lifecycle := Retiring, request := id) }

  function RetireEntries(entries: seq<Entry>, id: string): (r: seq<Entry>)
    ensures |r| == |entries| && forall i :: 0 <= i < |r| ==> r[i] == Retired(entries[i], id)
  {
    seq(|entries|, i requires 0 <= i < |entries| => Retired(entries[i], id))
  }

  function RetireServices(services: seq<Service>, id: string): (r: seq<Service>)
    ensures |r| == |services| && forall i :: 0 <= i < |r| ==> r[i] == RetiredService(services[i], id)
  {
    seq(|services|, i requires 0 <= i < |services| => RetiredService(services[i], id))
  }

  predicate IsRetiringUnder(lifecycle: Lifecycle, request: string, p: Parameters) { lifecycle.Retiring? && request == p.deletionRequest }

  /** The first database of that name is active. */
  predicate DatabaseActive(t: Tenant, name: string) {
    var i := Index(t.databases, EntryName, name);
    i >= 0 && t.databases[i].lifecycle.Active?
  }

  function EntriesOf(t: Tenant, databases: bool): seq<Entry> { if databases then t.databases else t.applications }

  function WithEntries(t: Tenant, databases: bool, entries: seq<Entry>): Tenant {
    if databases then t.(databases := entries) else t.(applications := entries)
  }

  function NewTenant(name: string, owners: seq<string>): Tenant { Tenant(name, TeamLeaf(name), Normalize(owners), Active, "", [], [], []) }

  function NewEntry(path: Leaf, databaseRef: string): Entry { Entry(path.name, path, databaseRef, Active, "") }

  function AddEntry(entries: seq<Entry>, e: Entry): seq<Entry> { SortBy(entries + [e], EntryName) }

  function PlanTeamCreate(tenants: seq<Tenant>, q: Request): Plan {
    if Index(tenants, TenantName, q.p.name) >= 0 then Refuse(tenants, Conflict)
    else Plan(tenants + [NewTenant(q.p.name, q.p.owners)], [WriteLeaf(TeamLeaf(q.p.name), TeamFile(q.p.name, q.p))])
  }

  function PlanTeamUpdate(tenants: seq<Tenant>, i: nat, q: Request): Plan
    requires i < |tenants|
  {
    Plan(tenants[i := tenants[i].(owners := Normalize(q.p.owners))], [WriteLeaf(TeamLeaf(q.p.name), TeamFile(q.p.name, q.p))])
  }

  function Approvals(entries: seq<Entry>, database: bool, q: Request): (r: seq<Action>)
    ensures |r| == |entries|
  {
    seq(|entries|, i requires 0 <= i < |entries| =>
      Approve(if database then DatabaseLeaf(entries[i].name) else AppLeaf(entries[i].name), q.id, q.p.force))
  }

  function RetireTenant(t: Tenant, id: string): Tenant {
    t.(lifecycle := Retiring, request := id, applications := RetireEntries(t.applications, id),
       databases := RetireEntries(t.databases, id), services := RetireServices(t.services, id))
  }

  function PlanTeamDelete(tenants: seq<Tenant>, i: nat, q: Request): Plan
    requires i < |tenants|
  {
    var t := tenants[i];
    Plan(tenants[i := RetireTenant(t, q.id)],
         [Approve(TeamLeaf(q.p.name), q.id, q.p.force)] + Approvals(t.applications, false, q) + Approvals(t.databases, true, q))
  }

  function Drops(entries: seq<Entry>): (r: seq<Action>)
    ensures |r| == |entries|
  {
    seq(|entries|, i requires 0 <= i < |entries| => DropLeaf(entries[i].path))
  }

  function SourceDrops(services: seq<Service>): (r: seq<Action>)
    ensures |r| == |services|
  {
    seq(|services|, i requires 0 <= i < |services| => DropSource(services[i]))
  }

  function PlanTeamFinalize(tenants: seq<Tenant>, i: nat, q: Request): Plan
    requires i < |tenants|
  {
    var t := tenants[i];
    if !IsRetiringUnder(t.lifecycle, t.request, q.p) then Refuse(tenants, Conflict)
    else Plan(Without(tenants, TenantName, [q.p.name]),
              [DropLeaf(TeamLeaf(q.p.name))] + Drops(t.applications) + Drops(t.databases) + SourceDrops(t.services))
  }

  predicate AnyApplication(tenants: seq<Tenant>, name: string) { exists t <- tenants :: HasEntry(t.applications, name) }
  predicate AnyDatabase(tenants: seq<Tenant>, name: string) { exists t <- tenants :: HasEntry(t.databases, name) }
  predicate AnyService(tenants: seq<Tenant>, name: string) { exists t <- tenants :: exists s <- t.services :: s.name == name }

  function PlanAppCreate(tenants: seq<Tenant>, i: nat, q: Request): Plan
    requires i < |tenants|
  {
    var t, p := tenants[i], q.p;
    if AnyApplication(tenants, p.name) then Refuse(tenants, Conflict)
    else if p.databaseRef != "" && !DatabaseActive(t, p.databaseRef) then Refuse(tenants, NotFound)
    else Plan(tenants[i := t.(applications := AddEntry(t.applications, NewEntry(AppLeaf(p.name), p.databaseRef)))],
              [WriteLeaf(AppLeaf(p.name), AppFile(p.team, p, true))])
  }

  function PlanAppUpdate(tenants: seq<Tenant>, i: nat, q: Request): Plan
    requires i < |tenants|
  {
    var t, p := tenants[i], q.p;
    var j := Index(t.applications, EntryName, p.name);
    if j < 0 then Refuse(tenants, NotFound)
    else if !t.applications[j].lifecycle.Active? then Refuse(tenants, Conflict)
    else if p.databaseRef != "" && !DatabaseActive(t, p.databaseRef) then Refuse(tenants, NotFound)
    else Plan(tenants[i := t.(applications := t.applications[j := t.applications[j].(databaseRef := p.databaseRef)])],
              [WriteLeaf(AppLeaf(p.name), AppFile(p.team, p, true))])
  }

  function PlanAppDelete(tenants: seq<Tenant>, i: nat, q: Request): Plan
    requires i < |tenants|
  {
    var t := tenants[i];
    var j := Index(t.applications, EntryName, q.p.name);
    if j < 0 then Refuse(tenants, NotFound)
    else if !t.applications[j].lifecycle.Active? then Refuse(tenants, Conflict)
    else Plan(tenants[i := t.(applications := t.applications[j := Retired(t.applications[j], q.id)])], [Approve(AppLeaf(q.p.name), q.id, q.p.force)])
  }

  function PlanAppFinalize(tenants: seq<Tenant>, i: nat, q: Request): Plan
    requires i < |tenants|
  {
    var t := tenants[i];
    var j := Index(t.applications, EntryName, q.p.name);
    if j < 0 then Refuse(tenants, NotFound)
    else if !IsRetiringUnder(t.applications[j].lifecycle, t.applications[j].request, q.p) then Refuse(tenants, Conflict)
    else Plan(tenants[i := t.(applications := Without(t.applications, EntryName, [q.p.name]))], [DropLeaf(t.applications[j].path)])
  }

  function PlanDatabaseCreate(tenants: seq<Tenant>, i: nat, q: Request): Plan
    requires i < |tenants|
  {
    var t, p := tenants[i], q.p;
    if AnyDatabase(tenants, p.name) then Refuse(tenants, Conflict)
    else Plan(tenants[i := t.(databases := AddEntry(t.databases, NewEntry(DatabaseLeaf(p.name), "")))],
              [WriteLeaf(DatabaseLeaf(p.name),
                         DatabaseManifest(p.team, p, Storage(Some(p.size), LOCAL_PATH),
                                          if q.operation.DatabaseRestore? then Some(Recovery(p.source, p.target)) else None))])
  }

  /** An update keeps the storage class and the recovery stanza, and never shrinks the storage. */
  function UpdatedDatabase(repo: Repository, p: Parameters): Result<File, ExitCode> {
    var path := Manifest(DatabaseLeaf(p.name));
    if !Allowed(path) then Err(Usage)
    else if path !in repo || !repo[path].ManifestFile? then Err(Internal)
    else if !repo[path].spec.DatabaseSpec? then Ok(DatabaseManifest(p.team, p, Storage(Some(p.size), LOCAL_PATH), None))
    else
      var current := repo[path].spec;
      if current.storage.None? then Ok(DatabaseManifest(p.team, p, Storage(Some(p.size), LOCAL_PATH), current.recovery))
      else
        var storage := current.storage.value;
        if storage.size.Some? && (storage.size.value.amount.None? || p.size.amount.None? || p.size.amount.value < storage.size.value.amount.value)
        then Err(Usage)
        else Ok(DatabaseManifest(p.team, p, Storage(Some(p.size), if storage.storageClass != "" then storage.storageClass else LOCAL_PATH),
                                 current.recovery))
  }

  function PlanDatabaseUpdate(repo: Repository, tenants: seq<Tenant>, i: nat, q: Request): Plan
    requires i < |tenants|
  {
    var t := tenants[i];
    var j := Index(t.databases, EntryName, q.p.name);
    if j < 0 then Refuse(tenants, NotFound)
    else if !t.databases[j].lifecycle.Active? then Refuse(tenants, Conflict)
    else
      match UpdatedDatabase(repo, q.p)
      case Err(code) => Refuse(tenants, code)
      case Ok(file) => Plan(tenants, [WriteLeaf(DatabaseLeaf(q.p.name), file)])
  }

  predicate DatabaseInUse(t: Tenant, name: string) { exists a <- t.applications :: a.databaseRef == name && a.lifecycle.Active? }

  function PlanDatabaseDelete(tenants: seq<Tenant>, i: nat, q: Request): Plan
    requires i < |tenants|
  {
    var t := tenants[i];
    var j := Index(t.databases, EntryName, q.p.name);
    if DatabaseInUse(t, q.p.name) then Refuse(tenants, Conflict)
    else if j < 0 then Refuse(tenants, NotFound)
    else if !t.databases[j].lifecycle.Active? then Refuse(tenants, Conflict)
    else Plan(tenants[i := t.(databases := t.databases[j := Retired(t.databases[j], q.id)])], [Approve(DatabaseLeaf(q.p.name), q.id, q.p.force)])
  }

  function PlanDatabaseFinalize(tenants: seq<Tenant>, i: nat, q: Request): Plan
    requires i < |tenants|
  {
    var t := tenants[i];
    var j := Index(t.databases, EntryName, q.p.name);
    if j < 0 then Refuse(tenants, NotFound)
    else if !IsRetiringUnder(t.databases[j].lifecycle, t.databases[j].request, q.p) then Refuse(tenants, Conflict)
    else Plan(tenants[i := t.(databases := Without(t.databases, EntryName, [q.p.name]))], [DropLeaf(t.databases[j].path)])
  }

  // ---------------------------------------------------------------- services

  const NO_SIZE := Size("", None)

  function ServiceTeam(p: Parameters): Parameters {
    Parameters("", p.team, [p.team + "-owners"], [SERVICE_IMAGES], "2", "4Gi", "", "", "", 0, 0, 0, "", 0, NO_SIZE, "", "", "", "",
               "", false, NoTemplate, Malformed(""), false, false)
  }

  const ONE_GIBIBYTE := 1073741824

  function ServiceDatabase(p: Parameters): Parameters {
    Parameters(p.team, p.name, [], [], "", "", "", "", "", 0, 0, 0, "", 1, Size("1Gi", Some(ONE_GIBIBYTE)), "0 0 2 * * *", "7d", "", "",
               "", false, NoTemplate, Malformed(""), false, false)
  }

  function NewService(p: Parameters): Service {
    Service(p.name, p.name, p.template, p.version, TemplateComponents(p.name, p.template), if p.withDatabase then p.name else "",
            p.createTeam, p.withDatabase, Scaffolded, "")
  }

  function WithService(t: Tenant, p: Parameters): Tenant {
    var databases := if p.withDatabase then AddEntry(t.databases, NewEntry(DatabaseLeaf(p.name), "")) else t.databases;
    t.(databases := databases, services := SortBy(t.services + [NewService(p)], ServiceName))
  }

  /** The database and the source that a scaffold adds to a tenant. */
  function ScaffoldActions(p: Parameters): seq<Action> {
    (if p.withDatabase then
       [WriteLeaf(DatabaseLeaf(p.name), DatabaseManifest(p.team, ServiceDatabase(p), Storage(Some(ServiceDatabase(p).size), LOCAL_PATH), None))]
     else [])
    + [WriteSource(NewService(p))]
  }

  function PlanScaffoldIn(tenants: seq<Tenant>, i: nat, p: Parameters, before: seq<Action>): Plan
    requires i < |tenants|
  {
    if !tenants[i].lifecycle.Active? then Plan(tenants, before + [Fail(Conflict)])
    else if p.withDatabase && DatabaseActive(tenants[i], p.name) then Plan(tenants, before + [Fail(Conflict)])
    else Plan(tenants[i := WithService(tenants[i], p)], before + ScaffoldActions(p))
  }

  function PlanServiceScaffold(tenants: seq<Tenant>, q: Request): Plan {
    var p := q.p;
    var i := Index(tenants, TenantName, p.team);
    if AnyService(tenants, p.name) then Refuse(tenants, Conflict)
    else if i >= 0 then
      if p.createTeam then Refuse(tenants, Conflict) else PlanScaffoldIn(tenants, i, p, [])
    else if !p.createTeam || p.team != p.name then Refuse(tenants, NotFound)
    else
      var team := NewTenant(p.team, ServiceTeam(p).owners);
      var longer := SortBy(tenants + [team], TenantName);
      assert team in multiset(longer);
      PlanScaffoldIn(longer, Index(longer, TenantName, p.team), p, [WriteLeaf(TeamLeaf(p.team), TeamFile(p.team, ServiceTeam(p)))])
  }

  function ImageTag(s: Service, component: string): string {
    s.name + "-" + (if s.template.GoApi? || component == s.name + "-api" then "api" else "web") + "-" + VersionText(s.version)
  }

  function Digits(n: nat): string {
    if n < 10 then [('0' as int + n) as char] else Digits(n / 10) + [('0' as int + n % 10) as char]
  }

  function VersionText(v: Version): string {
    if v.Malformed? then v.text else "v" + Digits(v.major) + "." + Digits(v.minor) + "." + Digits(v.patch)
  }

  function ComponentRef(s: Service, component: string): string {
    if s.template.FullStack? && component == s.name + "-api" then s.databaseRef else ""
  }

  function ComponentFile(team: string, s: Service, component: string): File {
    ManifestFile(Fresh(component, "team-" + team, "1"),
                 AppSpec(team + "-owners", SERVICE_IMAGES, ImageTag(s, component), 8080, 1, 3, !s.template.FullStack?))
  }

  /** The applications once a component is active in them. */
  function WithComponent(applications: seq<Entry>, s: Service, component: string): seq<Entry> {
    var j := Index(applications, EntryName, component);
    if j < 0 then applications + [NewEntry(AppLeaf(component), ComponentRef(s, component))]
    else if !applications[j].lifecycle.Active? then applications
    else applications[j := applications[j].(databaseRef := ComponentRef(s, component))]
  }

  function WithComponents(applications: seq<Entry>, s: Service, components: seq<string>): seq<Entry> {
    if components == [] then applications
    else WithComponent(WithComponents(applications, s, components[..|components| - 1]), s, components[|components| - 1])
  }

  function ComponentAction(team: string, applications: seq<Entry>, s: Service, component: string): Action {
    var j := Index(applications, EntryName, component);
    if j >= 0 && !applications[j].lifecycle.Active? then Fail(Conflict) else WriteLeaf(AppLeaf(component), ComponentFile(team, s, component))
  }

  function ComponentActions(team: string, applications: seq<Entry>, s: Service, components: seq<string>): seq<Action> {
    if components == [] then []
    else
      var init, last := components[..|components| - 1], components[|components| - 1];
      ComponentActions(team, applications, s, init) + [ComponentAction(team, WithComponents(applications, s, init), s, last)]
  }

  function PlanServiceActivate(tenants: seq<Tenant>, i: nat, q: Request): Plan
    requires i < |tenants|
  {
    var t := tenants[i];
    var j := Index(t.services, ServiceName, q.p.name);
    if j < 0 then Refuse(tenants, NotFound)
    else if t.services[j].lifecycle.Retiring? then Refuse(tenants, Conflict)
    else
      var s := t.services[j].(version := q.p.version);
      var active := s.(lifecycle := Active);
      Plan(tenants[i := t.(applications := SortBy(WithComponents(t.applications, s, s.components), EntryName), services := t.services[j := active])],
           ComponentActions(q.p.team, t.applications, s, s.components) + [WriteVersion(active)])
  }

  /** The listed names that are present retire; the others are skipped. */
  function RetireNamed(entries: seq<Entry>, names: seq<string>, id: string): (r: seq<Entry>)
    ensures |r| == |entries|
  {
    if names == [] then entries
    else
      var done := RetireNamed(entries, names[..|names| - 1], id);
      var j := Index(done, EntryName, names[|names| - 1]);
      if j < 0 then done else done[j := Retired(done[j], id)]
  }

  function ApproveNamed(entries: seq<Entry>, names: seq<string>, q: Request): seq<Action> {
    if names == [] then []
    else
      var last := names[|names| - 1];
      ApproveNamed(entries, names[..|names| - 1], q)
      + if Index(entries, EntryName, last) < 0 then [] else [Approve(AppLeaf(last), q.id, q.p.force)]
  }

  /** The index of the database a service owns in a tenant, or -1. */
  function OwnedDatabase(t: Tenant, s: Service): (i: int)
    ensures -1 <= i < |t.databases|
  {
    if s.ownsDatabase && s.databaseRef != "" then Index(t.databases, EntryName, s.databaseRef) else -1
  }

  function RetireService(t: Tenant, j: nat, id: string): Tenant
    requires j < |t.services|
  {
    var s, k := t.services[j], OwnedDatabase(t, t.services[j]);
    t.(services := t.services[j := RetiredService(s, id)], applications := RetireNamed(t.applications, s.components, id),
       databases := if k < 0 then t.databases else t.databases[k := Retired(t.databases[k], id)],
       lifecycle := if s.ownsTeam then Retiring else t.lifecycle, request := if s.ownsTeam then id else t.request)
  }

  function PlanServiceRetire(tenants: seq<Tenant>, i: nat, q: Request): Plan
    requires i < |tenants|
  {
    var t := tenants[i];
    var j := Index(t.services, ServiceName, q.p.name);
    if j < 0 then Refuse(tenants, NotFound)
    else if t.services[j].lifecycle.Retiring? then Refuse(tenants, Conflict)
    else
      var s, k := t.services[j], OwnedDatabase(t, t.services[j]);
      Plan(tenants[i := RetireService(t, j, q.id)],
           ApproveNamed(t.applications, s.components, q)
           + (if k < 0 then [] else [Approve(DatabaseLeaf(t.databases[k].name), q.id, q.p.force)])
           + (if s.ownsTeam then [Approve(TeamLeaf(t.name), q.id, q.p.force)] else []))
  }

  function DropIfRetiring(e: Entry, p: Parameters): Action {
    if IsRetiringUnder(e.lifecycle, e.request, p) then DropLeaf(e.path) else Fail(Conflict)
  }

  function DropNamed(entries: seq<Entry>, names: seq<string>, p: Parameters): seq<Action> {
    if names == [] then []
    else
      var j := Index(entries, EntryName, names[|names| - 1]);
      DropNamed(entries, names[..|names| - 1], p) + if j < 0 then [] else [DropIfRetiring(entries[j], p)]
  }

  function FinalizeService(t: Tenant, s: Service): Tenant {
    t.(applications := Without(t.applications, EntryName, s.components),
       databases := if s.ownsDatabase then Without(t.databases, EntryName, [s.databaseRef]) else t.databases,
       services := Without(t.services, ServiceName, [s.name]))
  }

  function PlanServiceFinalize(tenants: seq<Tenant>, i: nat, q: Request): Plan
    requires i < |tenants|
  {
    var t := tenants[i];
    var j := Index(t.services, ServiceName, q.p.name);
    if j < 0 then Refuse(tenants, NotFound)
    else if !IsRetiringUnder(t.services[j].lifecycle, t.services[j].request, q.p) then Refuse(tenants, Conflict)
    else
      var s, k := t.services[j], OwnedDatabase(t, t.services[j]);
      var actions := DropNamed(t.applications, s.components, q.p) + (if k < 0 then [] else [DropIfRetiring(t.databases[k], q.p)]) + [DropSource(s)];
      if s.ownsTeam then
        Plan(Without(tenants, TenantName, [t.name]),
             actions + [if IsRetiringUnder(t.lifecycle, t.request, q.p) then DropLeaf(t.path) else Fail(Conflict)])
      else Plan(tenants[i := FinalizeService(t, s)], actions)
  }

  // ---------------------------------------------------------------- every operation

  /** The tenant an operation works on. */
  function Target(q: Request): string {
    if q.operation.TeamCreate? || q.operation.TeamUpdate? || q.operation.TeamDelete? || q.operation.TeamFinalize? then q.p.name else q.p.team
  }

  predicate AllowsRetiring(o: Operation) { o.TeamFinalize? || o.ServiceFinalize? }

  function PlanIn(repo: Repository, tenants: seq<Tenant>, i: nat, q: Request): Plan
    requires i < |tenants| && !q.operation.TeamCreate? && !q.operation.ServiceScaffold?
  {
    match q.operation
    case TeamUpdate => PlanTeamUpdate(tenants, i, q)
    case TeamDelete => PlanTeamDelete(tenants, i, q)
    case TeamFinalize => PlanTeamFinalize(tenants, i, q)
    case AppCreate => PlanAppCreate(tenants, i, q)
    case AppUpdate => PlanAppUpdate(tenants, i, q)
    case AppDelete => PlanAppDelete(tenants, i, q)
    case AppFinalize => PlanAppFinalize(tenants, i, q)
    case DatabaseCreate => PlanDatabaseCreate(tenants, i, q)
    case DatabaseRestore => PlanDatabaseCreate(tenants, i, q)
    case DatabaseUpdate => PlanDatabaseUpdate(repo, tenants, i, q)
    case DatabaseDelete => PlanDatabaseDelete(tenants, i, q)
    case DatabaseFinalize => PlanDatabaseFinalize(tenants, i, q)
    case ServiceActivate => PlanServiceActivate(tenants, i, q)
    case ServiceRetire => PlanServiceRetire(tenants, i, q)
    case ServiceFinalize => PlanServiceFinalize(tenants, i, q)
  }

  function PlanOf(repo: Repository, tenants: seq<Tenant>, q: Request): Plan {
    if q.operation.TeamCreate? then PlanTeamCreate(tenants, q)
    else if q.operation.ServiceScaffold? then PlanServiceScaffold(tenants, q)
    else
      var i := Index(tenants, TenantName, Target(q));
      if i < 0 then Refuse(tenants, NotFound)
      else if !AllowsRetiring(q.operation) && !tenants[i].lifecycle.Active? then Refuse(tenants, Conflict)
      else PlanIn(repo, tenants, i, q)
  }
}
