/** The tenant catalog, the files of the repository, and when the two agree. */
module Catalog {
  import opened Wrappers

  // ---------------------------------------------------------------- entries

  datatype Lifecycle = Scaffolded | Active | Retiring

  /** A path is a leaf directory of the delivery tree. */
  datatype Leaf = TeamLeaf(name: string) | AppLeaf(name: string) | DatabaseLeaf(name: string)

  /** An application or a database; only applications refer to a database. */
  datatype Entry = Entry(name: string, path: Leaf, databaseRef: string, lifecycle: Lifecycle, request: string)

  datatype Template = GoApi | ReactStatic | FullStack | NoTemplate
  datatype Version = Version(major: nat, minor: nat, patch: nat) | Malformed(text: string)

  datatype Service = Service(name: string, path: string, template: Template, version: Version, components: seq<string>,
                             databaseRef: string, ownsTeam: bool, ownsDatabase: bool, lifecycle: Lifecycle, request: string)

  datatype Tenant = Tenant(name: string, path: Leaf, owners: seq<string>, lifecycle: Lifecycle, request: string,
                           applications: seq<Entry>, databases: seq<Entry>, services: seq<Service>)

  function TenantName(t: Tenant): string { t.name }
  function EntryName(e: Entry): string { e.name }
  function ServiceName(s: Service): string { s.name }

  // ---------------------------------------------------------------- files

  datatype SourceFile =
    | VersionFile | Descriptor | Readme
    | ApiMain | ApiTest | ApiDockerfile
    | WebDockerfile | WebPackage | WebLock | WebIndex | WebTsconfig | WebVite | WebMain | WebStyle | WebTest
    | WebServer | WebServerTest | WebStatic
    | Unlisted(relative: string)

  datatype Path = CatalogPath | Manifest(leaf: Leaf) | Kustomization(leaf: Leaf) | Extra(leaf: Leaf, entry: string)
    | Source(service: string, file: SourceFile) | Golden(test: bool) | Foreign(text: string)

  /** `others` holds the annotations the renderer never touches by name. */
  datatype Annotations = Annotations(syncOptions: Option<string>, deletionRequest: Option<string>, forceDelete: Option<string>, others: map<string, string>)
  datatype Metadata = Metadata(name: string, namespace: string, annotations: Annotations)

  /** `amount` is the parsed quantity, when the text is one. */
  datatype Size = Size(text: string, amount: Option<int>)
  datatype Storage = Storage(size: Option<Size>, storageClass: string)
  datatype Recovery = Recovery(source: string, target: string)

  datatype Spec =
    | TeamSpec(owners: seq<string>, cpu: string, memory: string, repositories: seq<string>)
    | AppSpec(owner: string, repository: string, tag: string, port: int, min: int, max: int, networkIsolation: bool)
    | DatabaseSpec(instances: int, storage: Option<Storage>, schedule: string, retention: string, recovery: Option<Recovery>)

  datatype File = ManifestFile(metadata: Metadata, spec: Spec) | KustomizationFile(leaf: Leaf) | CatalogFile(tenants: seq<Tenant>)
    | SourceText(service: string, template: Template, version: Option<Version>, file: SourceFile, golden: Option<string>)
    | Text(content: string)

  type Repository = map<Path, File>

  // ---------------------------------------------------------------- lookups

  /** The first position of a name, or -1. */
  function Index<T>(items: seq<T>, key: T -> string, name: string): (i: int)
    ensures -1 <= i < |items|
    ensures i >= 0 ==> key(items[i]) == name
    ensures forall j :: 0 <= j < (if i < 0 then |items| else i) ==> key(items[j]) != name
  {
    if items == [] then -1
    else if key(items[0]) == name then 0
    else
      var rest := Index(items[1..], key, name);
      if rest < 0 then -1 else rest + 1
  }

  function Without<T(!new)>(items: seq<T>, key: T -> string, names: seq<string>): (r: seq<T>)
    ensures forall x :: x in r <==> x in items && key(x) !in names
    ensures |r| <= |items|
  {
    if items == [] then []
    else if key(items[0]) in names then Without(items[1..], key, names)
    else [items[0]] + Without(items[1..], key, names)
  }

  predicate Before(a: string, b: string) {
    b != "" && (a == "" || a[0] < b[0] || (a[0] == b[0] && Before(a[1..], b[1..])))
  }

  function Insert<T>(item: T, items: seq<T>, key: T -> string): (r: seq<T>)
    ensures multiset(r) == multiset(items) + multiset{item}
  {
    if items == [] then [item]
    else if Before(key(items[0]), key(item)) then
      assert items == [items[0]] + items[1..];
      [items[0]] + Insert(item, items[1..], key)
    else [item] + items
  }

  function SortBy<T>(items: seq<T>, key: T -> string): (r: seq<T>)
    ensures multiset(r) == multiset(items) && |r| == |items|
  {
    if items == [] then []
    else
      assert items == [items[0]] + items[1..];
      var r := Insert(items[0], SortBy(items[1..], key), key);
      assert |multiset(r)| == |multiset(items)|;
      r
  }

  // ---------------------------------------------------------------- names

  predicate IsAlnum(c: char) { 'a' <= c <= 'z' || '0' <= c <= '9' }

  predicate ValidName(name: string, max: nat) {
    && 0 < |name| <= max && IsAlnum(name[0]) && IsAlnum(name[|name| - 1])
    && forall i :: 0 <= i < |name| ==> IsAlnum(name[i]) || name[i] == '-'
  }

  predicate IsHex(c: char) { '0' <= c <= '9' || 'a' <= c <= 'f' || 'A' <= c <= 'F' }

  predicate IsUuid(s: string) {
    |s| == 36 && forall i :: 0 <= i < 36 ==> if i == 8 || i == 13 || i == 18 || i == 23 then s[i] == '-' else IsHex(s[i])
  }

  predicate OwnerOk(owner: string) {
    (exists i :: 0 <= i < |owner| && owner[i] !in [' ', '\t', '\r', '\n']) && forall i :: 0 <= i < |owner| ==> owner[i] !in [' ', '\t', '\r', '\n']
  }

  predicate OwnersOk(owners: seq<string>) {
    && 1 <= |owners| <= 32 && (forall o <- owners :: OwnerOk(o))
    && forall i, j :: 0 <= i < j < |owners| ==> owners[i] != owners[j]
  }

  function TemplateComponents(name: string, template: Template): seq<string> {
    if template.FullStack? then [name, name + "-api"] else [name]
  }

  // ---------------------------------------------------------------- validity

  predicate LifecycleOk(lifecycle: Lifecycle, request: string) {
    match lifecycle case Scaffolded => false case Active => request == "" case Retiring => IsUuid(request)
  }

  predicate ServiceLifecycleOk(lifecycle: Lifecycle, request: string) {
    if lifecycle.Scaffolded? then request == "" else LifecycleOk(lifecycle, request)
  }

  predicate InLeaf(p: Path, leaf: Leaf) { (p.Manifest? || p.Kustomization? || p.Extra?) && p.leaf == leaf }

  predicate LeafExists(paths: set<Path>, leaf: Leaf) { exists p <- paths :: InLeaf(p, leaf) }

  predicate SourceExists(paths: set<Path>, service: string) { exists p <- paths :: p.Source? && p.service == service }

  predicate HasEntry(entries: seq<Entry>, name: string) { exists e <- entries :: e.name == name }

  predicate DatabaseOk(paths: set<Path>, d: Entry) {
    ValidName(d.name, 63) && LifecycleOk(d.lifecycle, d.request) && d.path == DatabaseLeaf(d.name) && LeafExists(paths, d.path)
  }

  predicate ApplicationOk(paths: set<Path>, databases: seq<Entry>, a: Entry) {
    && ValidName(a.name, 63) && LifecycleOk(a.lifecycle, a.request) && a.path == AppLeaf(a.name) && LeafExists(paths, a.path)
    && (a.databaseRef != "" ==> HasEntry(databases, a.databaseRef))
  }

  predicate ServiceOk(paths: set<Path>, databases: seq<Entry>, s: Service) {
    && ValidName(s.name, 48) && s.path == s.name && !s.template.NoTemplate? && s.version.Version?
    && s.components == TemplateComponents(s.name, s.template) && ServiceLifecycleOk(s.lifecycle, s.request)
    && (s.databaseRef != "" ==> HasEntry(databases, s.databaseRef)) && SourceExists(paths, s.path)
  }

  predicate TeamOk(paths: set<Path>, t: Tenant) {
    ValidName(t.name, 58) && OwnersOk(t.owners) && LifecycleOk(t.lifecycle, t.request) && t.path == TeamLeaf(t.name) && LeafExists(paths, t.path)
  }

  predicate TenantOk(paths: set<Path>, t: Tenant) {
    && TeamOk(paths, t) && (forall d <- t.databases :: DatabaseOk(paths, d))
    && (forall a <- t.applications :: ApplicationOk(paths, t.databases, a)) && (forall s <- t.services :: ServiceOk(paths, t.databases, s))
  }

  // ---------------------------------------------------------------- unique names

  /** The names in use, once for every entry that uses them. */
  datatype Names = Names(teams: multiset<string>, databases: multiset<string>, applications: multiset<string>, services: multiset<string>)

  function NamesOf<T>(items: seq<T>, key: T -> string): multiset<string> {
    if items == [] then multiset{} else multiset{key(items[0])} + NamesOf(items[1..], key)
  }

  function Join(a: Names, b: Names): Names {
    Names(a.teams + b.teams, a.databases + b.databases, a.applications + b.applications, a.services + b.services)
  }

  function TenantNames(t: Tenant): Names {
    Names(multiset{t.name}, NamesOf(t.databases, EntryName), NamesOf(t.applications, EntryName), NamesOf(t.services, ServiceName))
  }

  const NO_NAMES := Names(multiset{}, multiset{}, multiset{}, multiset{})

  function AllNames(tenants: seq<Tenant>): Names {
    if tenants == [] then NO_NAMES else Join(TenantNames(tenants[0]), AllNames(tenants[1..]))
  }

  predicate Distinct(m: multiset<string>) { forall x <- m :: m[x] == 1 }

  predicate UniqueNames(n: Names) { Distinct(n.teams) && Distinct(n.databases) && Distinct(n.applications) && Distinct(n.services) }

  predicate Valid(paths: set<Path>, tenants: seq<Tenant>) {
    UniqueNames(AllNames(tenants)) && forall t <- tenants :: TenantOk(paths, t)
  }
}
