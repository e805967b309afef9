/** The allowlist of rendered paths, on path strings, and the paths of the model it admits. */
module ChangePaths {
  import opened Catalog
  import opened ChangePlan

  // ---------------------------------------------------------------- components

  predicate Plain(part: string) { forall i :: 0 <= i < |part| ==> part[i] != '/' }

  /** The components between slashes; there is always at least one. */
  function Split(s: string): (parts: seq<string>)
    ensures parts != [] && forall part <- parts :: Plain(part)
  {
    if s == "" then [""]
    else
      var rest := Split(s[1..]);
      assert rest[0] in rest && Plain(rest[0]);
      assert s[0] != '/' ==> Plain([s[0]] + rest[0]);
      if s[0] == '/' then [""] + rest else [[s[0]] + rest[0]] + rest[1..]
  }

  function JoinParts(parts: seq<string>): string
    requires parts != []
  {
    if |parts| == 1 then parts[0] else parts[0] + "/" + JoinParts(parts[1..])
  }

  lemma {:induction false} SplitPlain(part: string)
    requires Plain(part)
    ensures Split(part) == [part]
  {
    if part != "" {
      assert Plain(part[1..]);
      SplitPlain(part[1..]);
      assert [part[0]] + part[1..] == part;
    }
  }

  lemma {:induction false} SplitAfter(part: string, rest: string)
    requires Plain(part)
    ensures Split(part + "/" + rest) == [part] + Split(rest)
  {
    var s := part + "/" + rest;
    if part == "" {
      assert s[1..] == rest;
    } else {
      assert s[1..] == part[1..] + "/" + rest && Plain(part[1..]);
      SplitAfter(part[1..], rest);
      assert [part[0]] + part[1..] == part;
      assert Split(s) == [[part[0]] + part[1..]] + Split(rest);
    }
  }

  lemma {:induction false} SplitJoined(parts: seq<string>)
    requires parts != [] && forall part <- parts :: Plain(part)
    ensures Split(JoinParts(parts)) == parts
  {
    if |parts| == 1 {
      SplitPlain(parts[0]);
    } else {
      SplitJoined(parts[1..]);
      SplitAfter(parts[0], JoinParts(parts[1..]));
    }
  }

  lemma {:induction false} JoinedSplit(s: string)
    ensures JoinParts(Split(s)) == s
  {
    if s != "" {
      var rest := Split(s[1..]);
      JoinedSplit(s[1..]);
      if s[0] == '/' {
        assert ([""] + rest)[1..] == rest;
        assert "" + "/" + JoinParts(rest) == s;
      } else {
        var parts := [[s[0]] + rest[0]] + rest[1..];
        assert parts[1..] == rest[1..];
        if |rest| == 1 {
          assert [s[0]] + rest[0] == s;
        } else {
          assert ([s[0]] + rest[0]) + "/" + JoinParts(rest[1..]) == [s[0]] + (rest[0] + "/" + JoinParts(rest[1..]));
        }
      }
    }
  }

  // ---------------------------------------------------------------- names of the files

  function Relative(f: SourceFile): seq<string> {
    match f
    case Readme => ["README.md"]
    case VersionFile => ["VERSION"]
    case Descriptor => ["service.yaml"]
    case ApiDockerfile => ["api", "Dockerfile"]
    case ApiMain => ["api", "main.go"]
    case ApiTest => ["api", "main_test.go"]
    case WebDockerfile => ["web", "Dockerfile"]
    case WebPackage => ["web", "package.json"]
    case WebLock => ["web", "package-lock.json"]
    case WebIndex => ["web", "index.html"]
    case WebTsconfig => ["web", "tsconfig.json"]
    case WebVite => ["web", "vite.config.ts"]
    case WebMain => ["web", "src", "main.tsx"]
    case WebStyle => ["web", "src", "style.css"]
    case WebTest => ["web", "test", "template.test.js"]
    case WebServer => ["web", "server", "main.go"]
    case WebServerTest => ["web", "server", "main_test.go"]
    case WebStatic => ["web", "server", "static", "index.html"]
    case Unlisted(relative) => [relative]
  }

  /** What tells the listed files apart: number of components, lengths of the last
      and of the one before, and the first letter. */
  function Print(parts: seq<string>): (int, int, int, char)
    requires parts != [] && parts[0] != ""
  {
    (|parts|, |parts[|parts| - 1]|, if |parts| > 1 then |parts[|parts| - 2]| else 0, parts[0][0])
  }

  function PrintOf(f: SourceFile): (int, int, int, char)
    requires !f.Unlisted?
  {
    match f
    case Readme => (1, 9, 0, 'R')
    case VersionFile => (1, 7, 0, 'V')
    case Descriptor => (1, 12, 0, 's')
    case ApiDockerfile => (2, 10, 3, 'a')
    case ApiMain => (2, 7, 3, 'a')
    case ApiTest => (2, 12, 3, 'a')
    case WebDockerfile => (2, 10, 3, 'w')
    case WebPackage => (2, 12, 3, 'w')
    case WebLock => (2, 17, 3, 'w')
    case WebIndex => (2, 10, 3, 'w')
    case WebTsconfig => (2, 13, 3, 'w')
    case WebVite => (2, 14, 3, 'w')
    case WebMain => (3, 8, 3, 'w')
    case WebStyle => (3, 9, 3, 'w')
    case WebTest => (3, 16, 4, 'w')
    case WebServer => (3, 7, 6, 'w')
    case WebServerTest => (3, 12, 6, 'w')
    case WebStatic => (4, 10, 6, 'w')
  }

  lemma PrintIs(f: SourceFile)
    requires !f.Unlisted?
    ensures Relative(f)[0] != "" && Print(Relative(f)) == PrintOf(f)
  {
  }

  /** No two listed files have the same name. */
  lemma RelativeIsInjective(f: SourceFile, g: SourceFile)
    requires !f.Unlisted? && !g.Unlisted? && Relative(f) == Relative(g)
    ensures f == g
  {
    hide Relative, Print;
    PrintIs(f);
    PrintIs(g);
    if f.WebDockerfile? || g.WebDockerfile? {
      DockerfileIsNotIndex();
    }
  }

  lemma DockerfileIsNotIndex()
    ensures Relative(WebDockerfile) != Relative(WebIndex)
  {
    assert Relative(WebDockerfile)[1][0] == 'D' && Relative(WebIndex)[1][0] == 'i';
  }

  const LISTED := {Readme, VersionFile, ApiDockerfile, ApiMain, ApiTest, Descriptor, WebDockerfile, WebIndex, WebLock, WebPackage, WebServer,
                   WebServerTest, WebStatic, WebMain, WebStyle, WebTest, WebTsconfig, WebVite}

  lemma EveryListed(f: SourceFile)
    ensures f in LISTED <==> !f.Unlisted?
  {
  }

  // ---------------------------------------------------------------- the check on strings

  const CATALOG_PARTS := ["gitops", "clusters", "local", "catalog", "tenants.yaml"]
  const KUSTOMIZATION := "kustomization.yaml"

  function Kind(leaf: Leaf): string {
    match leaf case TeamLeaf(_) => "teams" case AppLeaf(_) => "applications" case DatabaseLeaf(_) => "databases"
  }

  function ManifestName(leaf: Leaf): string {
    match leaf case TeamLeaf(_) => "team.yaml" case AppLeaf(_) => "application.yaml" case DatabaseLeaf(_) => "database.yaml"
  }

  /** Clean, relative and not climbing out. */
  predicate SafeParts(parts: seq<string>) { forall part <- parts :: part != "" && part != "." && part != ".." }

  predicate LeafFile(kind: string, file: string) {
    || (kind == "teams" && (file == "team.yaml" || file == KUSTOMIZATION))
    || (kind == "applications" && (file == "application.yaml" || file == KUSTOMIZATION))
    || (kind == "databases" && (file == "database.yaml" || file == KUSTOMIZATION))
  }

  predicate ServiceFile(parts: seq<string>) {
    |parts| >= 3 && parts[0] == "services" && ValidName(parts[1], 48)
  }

  /** Whether a rendered path is safe and on the allowlist. */
  predicate Accepts(path: string) {
    var parts := Split(path);
    && (SafeParts(parts) || path == "." || path == "..")
    && (|| parts == CATALOG_PARTS
        || if ServiceFile(parts) then exists f <- LISTED :: Relative(f) == parts[2..]
           else |parts| == 4 && parts[0] == "gitops" && LeafFile(parts[1], parts[3]) && ValidName(parts[2], 63))
  }

  // ---------------------------------------------------------------- the paths of the model

  function Parts(p: Path): seq<string>
    requires Allowed(p)
  {
    match p
    case CatalogPath => CATALOG_PARTS
    case Manifest(leaf) => ["gitops", Kind(leaf), leaf.name, ManifestName(leaf)]
    case Kustomization(leaf) => ["gitops", Kind(leaf), leaf.name, KUSTOMIZATION]
    case Source(service, f) => ["services", service] + Relative(f)
  }

  function Text(p: Path): (s: string)
    requires Allowed(p)
  {
    assert Parts(p) != [];
    JoinParts(Parts(p))
  }

  /** Where a file of a service lies in its directory. */
  ghost function PlaceOf(f: SourceFile): string {
    match f
    case Readme => "README.md"
    case VersionFile => "VERSION"
    case Descriptor => "service.yaml"
    case ApiDockerfile => "api/Dockerfile"
    case ApiMain => "api/main.go"
    case ApiTest => "api/main_test.go"
    case WebDockerfile => "web/Dockerfile"
    case WebPackage => "web/package.json"
    case WebLock => "web/package-lock.json"
    case WebIndex => "web/index.html"
    case WebTsconfig => "web/tsconfig.json"
    case WebVite => "web/vite.config.ts"
    case WebMain => "web/src/main.tsx"
    case WebStyle => "web/src/style.css"
    case WebTest => "web/test/template.test.js"
    case WebServer => "web/server/main.go"
    case WebServerTest => "web/server/main_test.go"
    case WebStatic => "web/server/static/index.html"
    case Unlisted(relative) => relative
  }

  lemma JoinTwo(a: string, b: string)
    ensures JoinParts([a, b]) == a + "/" + b
  {
    assert [a, b][1..] == [b];
  }

  lemma JoinMore(a: string, rest: seq<string>)
    requires rest != []
    ensures JoinParts([a] + rest) == a + "/" + JoinParts(rest)
  {
    assert ([a] + rest)[1..] == rest;
  }

  lemma Joined(a: string, b: string, c: string)
    ensures JoinParts([a]) == a && JoinParts([a, b]) == a + "/" + b && JoinParts([a, b, c]) == a + "/" + b + "/" + c
  {
    hide JoinParts;
    JoinTwo(a, b);
    JoinTwo(b, c);
    assert [a, b, c] == [a] + [b, c];
    JoinMore(a, [b, c]);
    assert a + "/" + (b + "/" + c) == a + "/" + b + "/" + c;
    JoinOne(a);
  }

  lemma JoinOne(a: string)
    ensures JoinParts([a]) == a
  {
  }

  lemma ApiPlaces()
    ensures JoinParts(["api", "Dockerfile"]) == "api/Dockerfile" && JoinParts(["api", "main.go"]) == "api/main.go"
    ensures JoinParts(["api", "main_test.go"]) == "api/main_test.go"
  {
    hide JoinParts;
    JoinTwo("api", "Dockerfile");
    JoinTwo("api", "main.go");
    JoinTwo("api", "main_test.go");
  }

  lemma PackagePlaces()
    ensures JoinParts(["web", "Dockerfile"]) == "web/Dockerfile" && JoinParts(["web", "package.json"]) == "web/package.json"
    ensures JoinParts(["web", "package-lock.json"]) == "web/package-lock.json"
  {
    hide JoinParts;
    JoinTwo("web", "Dockerfile");
    JoinTwo("web", "package.json");
    JoinTwo("web", "package-lock.json");
  }

  lemma ConfigPlaces()
    ensures JoinParts(["web", "index.html"]) == "web/index.html" && JoinParts(["web", "tsconfig.json"]) == "web/tsconfig.json"
    ensures JoinParts(["web", "vite.config.ts"]) == "web/vite.config.ts"
  {
    hide JoinParts;
    JoinTwo("web", "index.html");
    JoinTwo("web", "tsconfig.json");
    JoinTwo("web", "vite.config.ts");
  }

  lemma PagePlaces()
    ensures JoinParts(["web", "src", "main.tsx"]) == "web/src/main.tsx" && JoinParts(["web", "src", "style.css"]) == "web/src/style.css"
    ensures JoinParts(["web", "test", "template.test.js"]) == "web/test/template.test.js"
  {
    hide JoinParts;
    Joined("web", "src", "main.tsx");
    Joined("web", "src", "style.css");
    Joined("web", "test", "template.test.js");
  }

  lemma ServerPlaces()
    ensures JoinParts(["web", "server", "main.go"]) == "web/server/main.go"
    ensures JoinParts(["web", "server", "main_test.go"]) == "web/server/main_test.go"
    ensures JoinParts(["web", "server", "static", "index.html"]) == "web/server/static/index.html"
  {
    hide JoinParts;
    Joined("web", "server", "main.go");
    Joined("web", "server", "main_test.go");
    Joined("server", "static", "index.html");
    assert ["web", "server", "static", "index.html"] == ["web"] + ["server", "static", "index.html"];
    JoinMore("web", ["server", "static", "index.html"]);
    assert "web" + "/" + ("server" + "/" + "static" + "/" + "index.html") == "web/server/static/index.html";
  }

  lemma PlaceIs(f: SourceFile)
    ensures Relative(f) != [] && JoinParts(Relative(f)) == PlaceOf(f)
  {
    hide JoinParts;
    match f {
      case Readme => JoinOne("README.md");
      case VersionFile => JoinOne("VERSION");
      case Descriptor => JoinOne("service.yaml");
      case ApiDockerfile => ApiPlaces();
      case ApiMain => ApiPlaces();
      case ApiTest => ApiPlaces();
      case WebDockerfile => PackagePlaces();
      case WebPackage => PackagePlaces();
      case WebLock => PackagePlaces();
      case WebIndex => ConfigPlaces();
      case WebTsconfig => ConfigPlaces();
      case WebVite => ConfigPlaces();
      case WebMain => PagePlaces();
      case WebStyle => PagePlaces();
      case WebTest => PagePlaces();
      case WebServer => ServerPlaces();
      case WebServerTest => ServerPlaces();
      case WebStatic => ServerPlaces();
      case Unlisted(relative) => JoinOne(relative);
    }
  }

  lemma JoinFive(a: string, b: string, c: string, d: string, e: string)
    ensures JoinParts([a, b, c, d, e]) == a + "/" + b + "/" + c + "/" + d + "/" + e
  {
    hide JoinParts;
    assert [a, b, c, d, e] == [a] + ([b] + [c, d, e]);
    JoinMore(a, [b] + [c, d, e]);
    JoinMore(b, [c, d, e]);
    Joined(c, d, e);
    assert a + "/" + (b + "/" + (c + "/" + d + "/" + e)) == a + "/" + b + "/" + c + "/" + d + "/" + e;
  }

  lemma CatalogText()
    ensures Text(CatalogPath) == "gitops" + "/" + "clusters" + "/" + "local" + "/" + "catalog" + "/" + "tenants.yaml"
  {
    hide JoinParts;
    JoinFive("gitops", "clusters", "local", "catalog", "tenants.yaml");
  }

  lemma LeafText(kind: string, name: string, file: string)
    ensures JoinParts(["gitops", kind, name, file]) == "gitops/" + kind + "/" + name + "/" + file
  {
    hide JoinParts;
    assert ["gitops", kind, name, file] == ["gitops"] + ([kind] + [name, file]);
    JoinMore("gitops", [kind] + [name, file]);
    JoinMore(kind, [name, file]);
    JoinTwo(name, file);
    assert "gitops" + "/" == "gitops/";
    assert "gitops" + "/" + (kind + "/" + (name + "/" + file)) == "gitops" + "/" + kind + "/" + name + "/" + file;
  }

  /** Every leaf has its directory, with a manifest of its kind and a kustomization. */
  lemma LeafTexts(leaf: Leaf)
    requires ValidName(leaf.name, 63)
    ensures var kind := match leaf case TeamLeaf(_) => "team" case AppLeaf(_) => "application" case DatabaseLeaf(_) => "database";
            && Text(Manifest(leaf)) == "gitops/" + (kind + "s") + "/" + leaf.name + "/" + (kind + ".yaml")
            && Text(Kustomization(leaf)) == "gitops/" + (kind + "s") + "/" + leaf.name + "/" + "kustomization.yaml"
  {
    hide JoinParts;
    LeafText(Kind(leaf), leaf.name, ManifestName(leaf));
    LeafText(Kind(leaf), leaf.name, KUSTOMIZATION);
    assert "team" + "s" == "teams" && "application" + "s" == "applications" && "database" + "s" == "databases";
    assert "team" + ".yaml" == "team.yaml" && "application" + ".yaml" == "application.yaml" && "database" + ".yaml" == "database.yaml";
  }

  /** Every generated file lies in the directory of its service. */
  lemma SourceTexts(service: string, f: SourceFile)
    requires ValidName(service, 48) && !f.Unlisted?
    ensures Text(Source(service, f)) == "services/" + service + "/" + PlaceOf(f)
  {
    hide JoinParts, Relative, PlaceOf;
    PlaceIs(f);
    var r := Relative(f);
    assert ["services", service] + r == ["services"] + ([service] + r);
    JoinMore("services", [service] + r);
    JoinMore(service, r);
    assert "services" + "/" == "services/";
    assert "services" + "/" + (service + "/" + PlaceOf(f)) == "services" + "/" + service + "/" + PlaceOf(f);
  }

  lemma ValidIsPlain(name: string, max: nat)
    requires ValidName(name, max)
    ensures Plain(name) && name != "" && name != "." && name != ".."
  {
    assert IsAlnum(name[0]);
  }

  predicate PlainParts(parts: seq<string>) { parts != [] && SafeParts(parts) && forall part <- parts :: Plain(part) }

  lemma RootFilesArePlain()
    ensures PlainParts(Relative(Readme)) && PlainParts(Relative(VersionFile)) && PlainParts(Relative(Descriptor))
  {
  }

  lemma ApiFilesArePlain()
    ensures PlainParts(Relative(ApiDockerfile)) && PlainParts(Relative(ApiMain)) && PlainParts(Relative(ApiTest))
  {
  }

  lemma PackageFilesArePlain()
    ensures PlainParts(Relative(WebDockerfile)) && PlainParts(Relative(WebPackage)) && PlainParts(Relative(WebLock))
  {
  }

  lemma ConfigFilesArePlain()
    ensures PlainParts(Relative(WebIndex)) && PlainParts(Relative(WebTsconfig)) && PlainParts(Relative(WebVite))
  {
  }

  lemma PageFilesArePlain()
    ensures PlainParts(Relative(WebMain)) && PlainParts(Relative(WebStyle))
  {
  }

  lemma CheckFilesArePlain()
    ensures PlainParts(Relative(WebTest)) && PlainParts(Relative(WebServer))
  {
  }

  lemma ServerFilesArePlain()
    ensures PlainParts(Relative(WebServerTest)) && PlainParts(Relative(WebStatic))
  {
  }

  lemma RelativeIsPlain(f: SourceFile)
    requires !f.Unlisted?
    ensures PlainParts(Relative(f))
  {
    hide Relative, PlainParts;
    RootFilesArePlain();
    ApiFilesArePlain();
    PackageFilesArePlain();
    ConfigFilesArePlain();
    PageFilesArePlain();
    CheckFilesArePlain();
    ServerFilesArePlain();
  }

  lemma CatalogIsPlain()
    ensures PlainParts(CATALOG_PARTS)
  {
  }

  lemma LeafPartsArePlain(leaf: Leaf)
    ensures PlainParts(["gitops", Kind(leaf)]) && PlainParts([ManifestName(leaf)]) && PlainParts([KUSTOMIZATION]) && PlainParts(["services"])
  {
  }

  lemma PlainAppend(a: seq<string>, b: seq<string>)
    requires PlainParts(a) && PlainParts(b)
    ensures PlainParts(a + b)
  {
    hide Plain;
  }

  lemma PlainOne(name: string, max: nat)
    requires ValidName(name, max)
    ensures PlainParts([name])
  {
    hide Plain;
    ValidIsPlain(name, max);
  }

  lemma PartsArePlain(p: Path)
    requires Allowed(p)
    ensures PlainParts(Parts(p))
  {
    hide Relative, ValidName, PlainParts, Kind, ManifestName;
    CatalogIsPlain();
    match p {
      case CatalogPath =>
      case Manifest(leaf) => LeafFilesArePlain(leaf);
      case Kustomization(leaf) => LeafFilesArePlain(leaf);
      case Source(service, f) =>
        LeafPartsArePlain(TeamLeaf(service));
        PlainOne(service, 48);
        RelativeIsPlain(f);
        PlainAppend(["services"], [service]);
        assert ["services"] + [service] == ["services", service];
        PlainAppend(["services", service], Relative(f));
    }
  }

  lemma LeafFilesArePlain(leaf: Leaf)
    requires ValidName(leaf.name, 63)
    ensures PlainParts(["gitops", Kind(leaf), leaf.name, ManifestName(leaf)]) && PlainParts(["gitops", Kind(leaf), leaf.name, KUSTOMIZATION])
  {
    hide ValidName, PlainParts, Kind, ManifestName;
    LeafPartsArePlain(leaf);
    PlainOne(leaf.name, 63);
    PlainAppend(["gitops", Kind(leaf)], [leaf.name]);
    var head := ["gitops", Kind(leaf)] + [leaf.name];
    PlainAppend(head, [ManifestName(leaf)]);
    PlainAppend(head, [KUSTOMIZATION]);
    assert head + [ManifestName(leaf)] == ["gitops", Kind(leaf), leaf.name, ManifestName(leaf)];
    assert head + [KUSTOMIZATION] == ["gitops", Kind(leaf), leaf.name, KUSTOMIZATION];
  }

  /** Every allowed path of the model is a string the check accepts. */
  lemma AllowedIsAccepted(p: Path)
    requires Allowed(p)
    ensures Accepts(Text(p))
  {
    hide Relative, ValidName, Split, JoinParts;
    PartsArePlain(p);
    SplitJoined(Parts(p));
    if p.Source? {
      EveryListed(p.file);
      RelativeIsPlain(p.file);
      assert Parts(p)[2..] == Relative(p.file);
    }
  }

  /** Different paths of the model are different files. */
  lemma TextIsInjective(p: Path, q: Path)
    requires Allowed(p) && Allowed(q) && Text(p) == Text(q)
    ensures p == q
  {
    hide Relative, ValidName, Split, JoinParts;
    PartsArePlain(p);
    PartsArePlain(q);
    SplitJoined(Parts(p));
    SplitJoined(Parts(q));
    assert Parts(p) == Parts(q);
    SamePartsSamePath(p, q);
  }

  lemma SamePartsSamePath(p: Path, q: Path)
    requires Allowed(p) && Allowed(q) && Parts(p) == Parts(q)
    ensures p == q
  {
    hide Relative, ValidName;
    assert Parts(p)[0] == Parts(q)[0] && |Parts(p)| == |Parts(q)|;
    assert Parts(p)[0][0] == Parts(q)[0][0];
    if p.Source? {
      assert Parts(p)[1] == Parts(q)[1];
      assert Parts(p)[2..] == Relative(p.file) && Parts(q)[2..] == Relative(q.file);
      RelativeIsInjective(p.file, q.file);
    } else if !p.CatalogPath? {
      assert |Parts(p)[1]| == |Parts(q)[1]| && Parts(p)[2] == Parts(q)[2] && |Parts(p)[3]| == |Parts(q)[3]|;
    }
  }

  /** And every string the check accepts is an allowed path of the model. */
  lemma AcceptedIsAllowed(path: string) returns (p: Path)
    requires Accepts(path)
    ensures Allowed(p) && Text(p) == path
  {
    hide Relative, ValidName, Split, JoinParts;
    JoinedSplit(path);
    var parts := Split(path);
    if parts == CATALOG_PARTS {
      p := CatalogPath;
    } else if ServiceFile(parts) {
      var f :| f in LISTED && Relative(f) == parts[2..];
      EveryListed(f);
      p := Source(parts[1], f);
      assert parts == ["services", parts[1]] + parts[2..];
    } else {
      var leaf := if parts[1] == "teams" then TeamLeaf(parts[2]) else if parts[1] == "applications" then AppLeaf(parts[2]) else DatabaseLeaf(parts[2]);
      p := if parts[3] == KUSTOMIZATION then Kustomization(leaf) else Manifest(leaf);
      assert parts == [parts[0], parts[1], parts[2], parts[3]];
    }
  }
}
