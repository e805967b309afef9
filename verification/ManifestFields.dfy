/** What every generated file says, field by field, and that the files of the plans say it. */
module ManifestFields {
  import opened Wrappers
  import opened Catalog
  import opened CatalogFacts
  import opened ChangePlan
  import opened RenderSafety

  // ---------------------------------------------------------------- names in order

  /** The first place where two texts differ decides; a prefix comes first. */
  ghost predicate Precedes(a: string, b: string) {
    exists k :: 0 <= k <= |a| && k < |b| && a[..k] == b[..k] && (k == |a| || a[k] < b[k])
  }

  lemma {:induction false} BeforeDiffers(a: string, b: string) returns (k: nat)
    requires Before(a, b)
    ensures k <= |a| && k < |b| && a[..k] == b[..k] && (k == |a| || a[k] < b[k])
    decreases |a|
  {
    if a == "" || a[0] < b[0] {
      k := 0;
    } else {
      var rest := BeforeDiffers(a[1..], b[1..]);
      k := rest + 1;
      assert a[..k] == [a[0]] + a[1..][..rest] && b[..k] == [b[0]] + b[1..][..rest];
    }
  }

  lemma {:induction false} DiffersBefore(a: string, b: string, k: nat)
    requires k <= |a| && k < |b| && a[..k] == b[..k] && (k == |a| || a[k] < b[k])
    ensures Before(a, b)
    decreases k
  {
    if k > 0 {
      assert a[0] == a[..k][0] && b[0] == b[..k][0];
      assert a[1..][..k - 1] == a[..k][1..] && b[1..][..k - 1] == b[..k][1..];
      DiffersBefore(a[1..], b[1..], k - 1);
    }
  }

  lemma BeforePrecedes(a: string, b: string)
    ensures Before(a, b) <==> Precedes(a, b)
  {
    hide Before;
    if Before(a, b) {
      var k := BeforeDiffers(a, b);
    }
    if Precedes(a, b) {
      var k: nat :| k <= |a| && k < |b| && a[..k] == b[..k] && (k == |a| || a[k] < b[k]);
      DiffersBefore(a, b, k);
    }
  }

  /** The given values, each as often as given, in the order of their text. */
  ghost predicate InOrder(values: seq<string>, given: seq<string>) {
    multiset(values) == multiset(given) && forall i, j :: 0 <= i < j < |values| ==> !Precedes(values[j], values[i])
  }

  lemma NormalizeOrders(given: seq<string>)
    ensures InOrder(Normalize(given), given)
  {
    hide SortBy, Before, Precedes;
    SortBySorts(given, StringKey);
    var values := Normalize(given);
    forall i, j | 0 <= i < j < |values| ensures !Precedes(values[j], values[i]) {
      BeforePrecedes(values[j], values[i]);
      assert !Before(StringKey(values[j]), StringKey(values[i]));
    }
  }

  // ---------------------------------------------------------------- manifests

  /** A manifest that is protected from pruning and carries no deletion mark. */
  ghost function Protected(name: string, namespace: string, wave: string, spec: Spec): File {
    ManifestFile(Metadata(name, namespace, Annotations(Some("Prune=false"), None, None, map["argocd.argoproj.io/sync-wave" := wave])), spec)
  }

  ghost predicate TeamSays(file: File, name: string, owners: seq<string>, cpu: string, memory: string, repositories: seq<string>) {
    exists o, r :: InOrder(o, owners) && InOrder(r, repositories) && file == Protected(name, "", "-1", TeamSpec(o, cpu, memory, r))
  }

  lemma TeamFileSays(name: string, p: Parameters)
    ensures TeamSays(TeamFile(name, p), name, p.owners, p.cpu, p.memory, p.repositories)
  {
    hide InOrder, Normalize;
    NormalizeOrders(p.owners);
    NormalizeOrders(p.repositories);
  }

  lemma AppFileSays(team: string, p: Parameters, isolated: bool)
    ensures AppFile(team, p, isolated) ==
              Protected(p.name, "team-" + team, "1", AppSpec(p.owner, p.image, p.tag, p.port, p.min, p.max, isolated))
  {
  }

  ghost function DatabaseSays(team: string, name: string, instances: int, size: Size, storageClass: string, schedule: string, retention: string,
                              recovery: Option<Recovery>): File
  {
    Protected(name, "team-" + team, "0", DatabaseSpec(instances, Some(Storage(Some(size), storageClass)), schedule, retention, recovery))
  }

  /** A created database is on local storage; only a restored one has a recovery stanza. */
  lemma NewDatabaseSays(team: string, p: Parameters, recovery: Option<Recovery>)
    ensures DatabaseManifest(team, p, Storage(Some(p.size), LOCAL_PATH), recovery)
            == DatabaseSays(team, p.name, p.instances, p.size, "local-path", p.schedule, p.retention, recovery)
  {
  }

  /** An update of a stored database is refused when it would shrink, and keeps class and recovery. */
  lemma UpdatedDatabaseSays(repo: Repository, p: Parameters)
    requires var path := Manifest(DatabaseLeaf(p.name)); Allowed(path) && path in repo && Stored(repo[path])
    ensures var was := repo[Manifest(DatabaseLeaf(p.name))].spec;
            UpdatedDatabase(repo, p) ==
              if p.size.amount.None? || p.size.amount.value < was.storage.value.size.value.amount.value then Err(Usage)
              else Ok(DatabaseSays(p.team, p.name, p.instances, p.size, was.storage.value.storageClass, p.schedule, p.retention, was.recovery))
  {
    hide Allowed;
  }

  // ---------------------------------------------------------------- versions and components

  /** The value of a row of decimal digits. */
  ghost function Value(digits: string): int {
    if digits == "" then 0 else 10 * Value(digits[..|digits| - 1]) + (digits[|digits| - 1] as int - '0' as int)
  }

  /** The decimal numeral of a number, without leading zeros. */
  ghost predicate Numeral(text: string, n: nat) {
    0 < |text| && (forall i :: 0 <= i < |text| ==> '0' <= text[i] <= '9') && (text[0] == '0' ==> |text| == 1) && Value(text) == n
  }

  lemma {:induction false} DigitsAreNumeral(n: nat)
    ensures Numeral(Digits(n), n)
    decreases n
  {
    if n < 10 {
      assert Digits(n)[..0] == "";
    } else {
      DigitsAreNumeral(n / 10);
      var d := Digits(n);
      assert d[..|d| - 1] == Digits(n / 10);
      ZeroAlone(Digits(n / 10), n / 10);
    }
  }

  lemma ZeroAlone(text: string, n: nat)
    requires Numeral(text, n)
    ensures text[0] == '0' ==> n == 0
  {
    if text[0] == '0' {
      assert text[..|text| - 1] == "" && Value(text) == 0;
    }
  }

  ghost predicate VersionSays(text: string, v: Version) {
    v.Version? && exists a, b, c :: Numeral(a, v.major) && Numeral(b, v.minor) && Numeral(c, v.patch) && text == "v" + a + "." + b + "." + c
  }

  lemma VersionTextSays(v: Version)
    requires v.Version?
    ensures VersionSays(VersionText(v), v)
  {
    hide Numeral, Digits;
    DigitsAreNumeral(v.major);
    DigitsAreNumeral(v.minor);
    DigitsAreNumeral(v.patch);
  }

  /** Whether a component of a service is its API. */
  ghost predicate IsApi(s: Service, component: string) {
    match s.template case GoApi => true case FullStack => component != s.name case _ => false
  }

  /** The application of a component: the image is that of the service at its version. */
  ghost predicate ComponentSays(file: File, team: string, s: Service, component: string) {
    exists version :: VersionSays(version, s.version) &&
      file == Protected(component, "team-" + team, "1",
                        AppSpec(team + "-owners", "ghcr.io/saadabdullaah/steadystate-services",
                                s.name + (if IsApi(s, component) then "-api-" else "-web-") + version, 8080, 1, 3, s.template != FullStack))
  }

  lemma ComponentFileSays(team: string, s: Service, component: string)
    requires s.version.Version? && !s.template.NoTemplate? && component in TemplateComponents(s.name, s.template)
    ensures ComponentSays(ComponentFile(team, s, component), team, s, component)
  {
    hide VersionSays, VersionText;
    VersionTextSays(s.version);
    var version := VersionText(s.version);
    assert component == s.name || component == s.name + "-api";
    assert s.name != s.name + "-api" by { assert |s.name + "-api"| == |s.name| + 4; }
    var role := if IsApi(s, component) then "api" else "web";
    assert "-" + "api" + "-" == "-api-" && "-" + "web" + "-" == "-web-";
    assert s.name + "-" + role + "-" + version == s.name + ("-" + role + "-") + version;
  }

  /** Only the API of a full-stack service uses the database of the service. */
  lemma ComponentRefSays(s: Service, component: string)
    requires component in TemplateComponents(s.name, s.template)
    ensures ComponentRef(s, component) == if s.template == FullStack && component != s.name then s.databaseRef else ""
  {
    assert s.name != s.name + "-api" by { assert |s.name + "-api"| == |s.name| + 4; }
  }

  // ---------------------------------------------------------------- sources and marks

  /** The files a template generates. */
  ghost predicate Generates(template: Template, f: SourceFile) {
    match f
    case VersionFile => true
    case Descriptor => true
    case Readme => true
    case ApiMain => template == GoApi || template == FullStack
    case ApiTest => template == GoApi || template == FullStack
    case ApiDockerfile => template == GoApi || template == FullStack
    case Unlisted(_) => false
    case _ => template == ReactStatic || template == FullStack
  }

  lemma ApiFilesAre(f: SourceFile)
    ensures f in API_FILES <==> f == ApiDockerfile || f == ApiMain || f == ApiTest
  {
    assert API_FILES[0] == ApiDockerfile && API_FILES[1] == ApiMain && API_FILES[2] == ApiTest;
  }

  lemma WebFilesAre(f: SourceFile)
    ensures f in WEB_FILES <==> f.WebDockerfile? || f.WebIndex? || f.WebLock? || f.WebPackage? || f.WebServer? || f.WebServerTest? || f.WebStatic?
                                || f.WebMain? || f.WebStyle? || f.WebTest? || f.WebTsconfig? || f.WebVite?
  {
    var w := WEB_FILES;
    assert w[0] == WebDockerfile && w[1] == WebIndex && w[2] == WebLock && w[3] == WebPackage && w[4] == WebServer && w[5] == WebServerTest;
    assert w[6] == WebStatic && w[7] == WebMain && w[8] == WebStyle && w[9] == WebTest && w[10] == WebTsconfig && w[11] == WebVite;
  }

  lemma TemplateGenerates(template: Template)
    ensures forall f :: f in SourceFiles(template) <==> Generates(template, f)
  {
    hide API_FILES, WEB_FILES;
    forall f: SourceFile ensures f in SourceFiles(template) <==> Generates(template, f) {
      FileGenerated(template, f);
    }
  }

  lemma FileGenerated(template: Template, f: SourceFile)
    ensures f in SourceFiles(template) <==> Generates(template, f)
  {
    hide API_FILES, WEB_FILES;
    ApiFilesAre(f);
    WebFilesAre(f);
    var go, web := if UsesGo(template) then API_FILES else [], if UsesWeb(template) then WEB_FILES else [];
    assert SourceFiles(template) == [Readme, VersionFile] + go + [Descriptor] + web;
    assert f in [Readme, VersionFile] <==> f == Readme || f == VersionFile;
  }

  ghost function TextAt(repo: Repository, path: Path): string {
    if path in repo && repo[path].Text? then repo[path].content else ""
  }

  /** A generated source names its service and template; the version and the golden texts go where they belong. */
  ghost function SourceSays(repo: Repository, s: Service, f: SourceFile): File {
    SourceText(s.name, s.template, match f case VersionFile => Some(s.version) case Descriptor => Some(s.version) case _ => None, f,
               match f case ApiMain => Some(TextAt(repo, Golden(false))) case ApiTest => Some(TextAt(repo, Golden(true))) case _ => None)
  }

  lemma SourceContentSays(repo: Repository, s: Service, f: SourceFile)
    ensures SourceContent(repo, s, f) == SourceSays(repo, s, f)
  {
  }

  /** The mark takes the protection away and names the request; everything else stays. */
  ghost predicate MarkedSays(was: File, file: File, id: string, force: bool) {
    && was.ManifestFile? && file.ManifestFile? && file.spec == was.spec && file.metadata.name == was.metadata.name
    && file.metadata.namespace == was.metadata.namespace
    && var a, b := was.metadata.annotations, file.metadata.annotations;
       b.syncOptions == None && b.deletionRequest == Some(id) && b.others == a.others
       && (if force then b.forceDelete == Some("true") else b.forceDelete == a.forceDelete)
  }

  lemma MarkedIsMarked(was: File, id: string, force: bool)
    requires was.ManifestFile?
    ensures MarkedSays(was, Marked(was, id, force), id, force)
  {
  }
}
