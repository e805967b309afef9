/** What a catalog and a request must look like, in plain terms, and that the checks
    of the program accept exactly that. */
module CatalogRules {
  import opened Wrappers
  import opened Catalog
  import opened CatalogValidation
  import opened CatalogFacts
  import opened ChangePlan
  import opened ChangeSets

  // ---------------------------------------------------------------- texts

  /** A DNS label: lower-case letters and digits, with hyphens inside. */
  ghost predicate Label(name: string, max: nat) {
    && 1 <= |name| <= max && (forall c <- name :: 'a' <= c <= 'z' || '0' <= c <= '9' || c == '-') && name[0] != '-' && name[|name| - 1] != '-'
  }

  ghost predicate Hexadecimal(s: string, n: nat) {
    |s| == n && forall c <- s :: '0' <= c <= '9' || 'a' <= c <= 'f' || 'A' <= c <= 'F'
  }

  ghost predicate Uuid(s: string) {
    exists a, b, c, d, e :: s == a + "-" + b + "-" + c + "-" + d + "-" + e
      && Hexadecimal(a, 8) && Hexadecimal(b, 4) && Hexadecimal(c, 4) && Hexadecimal(d, 4) && Hexadecimal(e, 12)
  }

  ghost predicate Word(s: string) { s != "" && forall c <- s :: c !in " \t\r\n" }

  ghost predicate Owners(owners: seq<string>) {
    1 <= |owners| <= 32 && (forall o <- owners :: Word(o)) && forall o <- owners :: multiset(owners)[o] == 1
  }

  lemma LabelIs(name: string, max: nat)
    ensures ValidName(name, max) <==> Label(name, max)
  {
    assert forall i :: 0 <= i < |name| ==> name[i] in name;
  }

  lemma HexadecimalIs(s: string, n: nat)
    ensures Hexadecimal(s, n) <==> |s| == n && forall i :: 0 <= i < n ==> IsHex(s[i])
  {
    assert forall i :: 0 <= i < |s| ==> s[i] in s;
  }

  lemma UuidIs(s: string)
    ensures IsUuid(s) <==> Uuid(s)
  {
    hide Hexadecimal, IsHex;
    if Uuid(s) {
      var a, b, c, d, e :| s == a + "-" + b + "-" + c + "-" + d + "-" + e && Hexadecimal(a, 8) && Hexadecimal(b, 4) && Hexadecimal(c, 4)
                           && Hexadecimal(d, 4) && Hexadecimal(e, 12);
      PartsAreUuid(s, a, b, c, d, e);
    }
    if IsUuid(s) {
      UuidHasParts(s);
    }
  }

  lemma PartsAreUuid(s: string, a: string, b: string, c: string, d: string, e: string)
    requires s == a + "-" + b + "-" + c + "-" + d + "-" + e
    requires Hexadecimal(a, 8) && Hexadecimal(b, 4) && Hexadecimal(c, 4) && Hexadecimal(d, 4) && Hexadecimal(e, 12)
    ensures IsUuid(s)
  {
    hide Hexadecimal, IsHex;
    HexadecimalIs(a, 8);
    HexadecimalIs(b, 4);
    HexadecimalIs(c, 4);
    HexadecimalIs(d, 4);
    HexadecimalIs(e, 12);
    assert s[..8] == a && s[8] == '-' && s[9..13] == b && s[13] == '-' && s[14..18] == c && s[18] == '-' && s[19..23] == d && s[23] == '-' && s[24..] == e;
    forall i | 0 <= i < 36 ensures if i == 8 || i == 13 || i == 18 || i == 23 then s[i] == '-' else IsHex(s[i]) {
      assert i < 8 ==> s[i] == a[i];
      assert 9 <= i < 13 ==> s[i] == b[i - 9];
      assert 14 <= i < 18 ==> s[i] == c[i - 14];
      assert 19 <= i < 23 ==> s[i] == d[i - 19];
      assert 24 <= i ==> s[i] == e[i - 24];
    }
  }

  lemma UuidHasParts(s: string)
    requires IsUuid(s)
    ensures Uuid(s)
  {
    hide Hexadecimal, IsHex;
    var a, b, c, d, e := s[..8], s[9..13], s[14..18], s[19..23], s[24..];
    HexadecimalIs(a, 8);
    HexadecimalIs(b, 4);
    HexadecimalIs(c, 4);
    HexadecimalIs(d, 4);
    HexadecimalIs(e, 12);
    assert s == a + "-" + b + "-" + c + "-" + d + "-" + e;
  }

  lemma OwnersAre(owners: seq<string>)
    ensures OwnersOk(owners) <==> Owners(owners)
  {
    hide OwnerOk, Word;
    forall o ensures OwnerOk(o) <==> Word(o) {
      WordIs(o);
    }
    OnceEach(owners);
  }

  lemma WordIs(s: string)
    ensures OwnerOk(s) <==> Word(s)
  {
    assert forall i :: 0 <= i < |s| ==> s[i] in s;
    assert s != "" && Word(s) ==> s[0] !in [' ', '\t', '\r', '\n'];
  }

  /** No repetition, said with positions and with counts. */
  lemma OnceEach(s: seq<string>)
    ensures (forall i, j :: 0 <= i < j < |s| ==> s[i] != s[j]) <==> (forall x <- s :: multiset(s)[x] == 1)
  {
    if forall i, j :: 0 <= i < j < |s| ==> s[i] != s[j] {
      forall x <- s ensures multiset(s)[x] == 1 {
        OnceIn(s, x);
        assert x in multiset(s);
      }
    }
    if i, j :| 0 <= i < j < |s| && s[i] == s[j] {
      TwiceIn(s, i, j);
      assert s[i] in s;
    }
  }

  // ---------------------------------------------------------------- entries

  /** Active without a request, or retiring under one. */
  ghost predicate ActiveOrRetiring(lifecycle: Lifecycle, request: string) {
    (lifecycle == Active && request == "") || (lifecycle == Retiring && Uuid(request))
  }

  ghost predicate Directory(paths: set<Path>, leaf: Leaf) {
    Manifest(leaf) in paths || Kustomization(leaf) in paths || exists entry :: Extra(leaf, entry) in paths
  }

  ghost predicate Refers(ref: string, databases: seq<Entry>) { ref == "" || exists d <- databases :: d.name == ref }

  ghost predicate TeamRules(paths: set<Path>, t: Tenant) {
    Label(t.name, 58) && Owners(t.owners) && ActiveOrRetiring(t.lifecycle, t.request) && t.path == TeamLeaf(t.name) && Directory(paths, TeamLeaf(t.name))
  }

  ghost predicate DatabaseRules(paths: set<Path>, d: Entry) {
    Label(d.name, 63) && ActiveOrRetiring(d.lifecycle, d.request) && d.path == DatabaseLeaf(d.name) && Directory(paths, DatabaseLeaf(d.name))
  }

  ghost predicate ApplicationRules(paths: set<Path>, t: Tenant, a: Entry) {
    && Label(a.name, 63) && ActiveOrRetiring(a.lifecycle, a.request) && a.path == AppLeaf(a.name) && Directory(paths, AppLeaf(a.name))
    && Refers(a.databaseRef, t.databases)
  }

  ghost predicate ServiceRules(paths: set<Path>, t: Tenant, s: Service) {
    && Label(s.name, 48) && s.path == s.name && s.version.Version? && (exists f :: Source(s.name, f) in paths) && Refers(s.databaseRef, t.databases)
    && s.components == (match s.template case FullStack => [s.name, s.name + "-api"] case _ => [s.name]) && s.template != NoTemplate
    && (ActiveOrRetiring(s.lifecycle, s.request) || (s.lifecycle == Scaffolded && s.request == ""))
  }

  ghost predicate TenantRules(paths: set<Path>, t: Tenant) {
    && TeamRules(paths, t) && (forall d <- t.databases :: DatabaseRules(paths, d)) && (forall a <- t.applications :: ApplicationRules(paths, t, a))
    && forall s <- t.services :: ServiceRules(paths, t, s)
  }

  lemma LifecycleIs(lifecycle: Lifecycle, request: string)
    ensures LifecycleOk(lifecycle, request) <==> ActiveOrRetiring(lifecycle, request)
  {
    UuidIs(request);
  }

  lemma DirectoryIs(paths: set<Path>, leaf: Leaf)
    ensures LeafExists(paths, leaf) <==> Directory(paths, leaf)
  {
    if p :| p in paths && InLeaf(p, leaf) {
      assert p == Manifest(leaf) || p == Kustomization(leaf) || p == Extra(leaf, p.entry);
    }
    if Manifest(leaf) in paths {
      assert InLeaf(Manifest(leaf), leaf);
    } else if Kustomization(leaf) in paths {
      assert InLeaf(Kustomization(leaf), leaf);
    } else if entry :| Extra(leaf, entry) in paths {
      assert InLeaf(Extra(leaf, entry), leaf);
    }
  }

  lemma SourceIs(paths: set<Path>, service: string)
    ensures SourceExists(paths, service) <==> exists f :: Source(service, f) in paths
  {
    if p :| p in paths && p.Source? && p.service == service {
      assert p == Source(service, p.file);
    }
  }

  lemma TenantIs(paths: set<Path>, t: Tenant)
    ensures TenantOk(paths, t) <==> TenantRules(paths, t)
  {
    hide TeamOk, DatabaseOk, ApplicationOk, ServiceOk, TeamRules, DatabaseRules, ApplicationRules, ServiceRules;
    TeamIs(paths, t);
    forall d ensures DatabaseOk(paths, d) <==> DatabaseRules(paths, d) {
      DatabaseIs(paths, d);
    }
    forall a ensures ApplicationOk(paths, t.databases, a) <==> ApplicationRules(paths, t, a) {
      ApplicationIs(paths, t, a);
    }
    forall s ensures ServiceOk(paths, t.databases, s) <==> ServiceRules(paths, t, s) {
      ServiceIs(paths, t, s);
    }
  }

  lemma TeamIs(paths: set<Path>, t: Tenant)
    ensures TeamOk(paths, t) <==> TeamRules(paths, t)
  {
    hide ValidName, Label, OwnersOk, Owners, LifecycleOk, ActiveOrRetiring, LeafExists, Directory;
    LabelIs(t.name, 58);
    OwnersAre(t.owners);
    LifecycleIs(t.lifecycle, t.request);
    DirectoryIs(paths, TeamLeaf(t.name));
  }

  lemma DatabaseIs(paths: set<Path>, d: Entry)
    ensures DatabaseOk(paths, d) <==> DatabaseRules(paths, d)
  {
    hide ValidName, Label, LifecycleOk, ActiveOrRetiring, LeafExists, Directory;
    LabelIs(d.name, 63);
    LifecycleIs(d.lifecycle, d.request);
    DirectoryIs(paths, DatabaseLeaf(d.name));
  }

  lemma ApplicationIs(paths: set<Path>, t: Tenant, a: Entry)
    ensures ApplicationOk(paths, t.databases, a) <==> ApplicationRules(paths, t, a)
  {
    hide ValidName, Label, LifecycleOk, ActiveOrRetiring, LeafExists, Directory;
    LabelIs(a.name, 63);
    LifecycleIs(a.lifecycle, a.request);
    DirectoryIs(paths, AppLeaf(a.name));
  }

  lemma ServiceIs(paths: set<Path>, t: Tenant, s: Service)
    ensures ServiceOk(paths, t.databases, s) <==> ServiceRules(paths, t, s)
  {
    hide ValidName, Label, LifecycleOk, ActiveOrRetiring, SourceExists;
    LabelIs(s.name, 48);
    LifecycleIs(s.lifecycle, s.request);
    ScaffoldedIs(s.lifecycle, s.request);
    SourceIs(paths, s.name);
  }

  lemma ScaffoldedIs(lifecycle: Lifecycle, request: string)
    ensures lifecycle.Scaffolded? ==> !ActiveOrRetiring(lifecycle, request)
  {
  }

  // ---------------------------------------------------------------- names across the catalog

  datatype Kind = Teams | Databases | Applications | Services

  ghost function NamesFor(t: Tenant, kind: Kind): seq<string> {
    match kind
    case Teams => [t.name]
    case Databases => seq(|t.databases|, k requires 0 <= k < |t.databases| => t.databases[k].name)
    case Applications => seq(|t.applications|, k requires 0 <= k < |t.applications| => t.applications[k].name)
    case Services => seq(|t.services|, k requires 0 <= k < |t.services| => t.services[k].name)
  }

  /** A name is that of one entry of its kind in the whole catalog. */
  ghost predicate Once(tenants: seq<Tenant>, kind: Kind) {
    forall i, k, j, l ::
      0 <= i < |tenants| && 0 <= j < |tenants| && 0 <= k < |NamesFor(tenants[i], kind)| && 0 <= l < |NamesFor(tenants[j], kind)| ==>
        NamesFor(tenants[i], kind)[k] == NamesFor(tenants[j], kind)[l] ==> i == j && k == l
  }

  ghost function OfKind(names: Names, kind: Kind): multiset<string> {
    match kind case Teams => names.teams case Databases => names.databases case Applications => names.applications case Services => names.services
  }

  lemma {:induction false} NamesOfAre<T>(items: seq<T>, key: T -> string, names: seq<string>)
    requires |names| == |items| && forall k :: 0 <= k < |items| ==> names[k] == key(items[k])
    ensures NamesOf(items, key) == multiset(names)
    decreases |items|
  {
    if items != [] {
      NamesOfAre(items[1..], key, names[1..]);
      assert names == [names[0]] + names[1..];
    }
  }

  lemma TenantNamesAre(t: Tenant, kind: Kind)
    ensures OfKind(TenantNames(t), kind) == multiset(NamesFor(t, kind))
  {
    match kind {
      case Teams =>
      case Databases => NamesOfAre(t.databases, EntryName, NamesFor(t, kind));
      case Applications => NamesOfAre(t.applications, EntryName, NamesFor(t, kind));
      case Services => NamesOfAre(t.services, ServiceName, NamesFor(t, kind));
    }
  }

  lemma FirstTenant(tenants: seq<Tenant>, kind: Kind)
    requires tenants != []
    ensures OfKind(AllNames(tenants), kind) == multiset(NamesFor(tenants[0], kind)) + OfKind(AllNames(tenants[1..]), kind)
  {
    hide TenantNames;
    TenantNamesAre(tenants[0], kind);
  }

  lemma {:induction false} NamesIn(tenants: seq<Tenant>, kind: Kind, name: string)
    ensures name in OfKind(AllNames(tenants), kind) <==> exists i :: 0 <= i < |tenants| && name in NamesFor(tenants[i], kind)
    decreases |tenants|
  {
    hide NamesFor, AllNames;
    if tenants == [] {
      NoTenants(kind);
    } else {
      var rest := tenants[1..];
      NamesIn(rest, kind, name);
      FirstTenant(tenants, kind);
      assert name in multiset(NamesFor(tenants[0], kind)) <==> name in NamesFor(tenants[0], kind);
      assert forall i :: 0 <= i < |rest| ==> rest[i] == tenants[i + 1];
      if i :| 0 <= i < |tenants| && name in NamesFor(tenants[i], kind) {
        assert i > 0 ==> rest[i - 1] == tenants[i];
      }
    }
  }

  lemma NoTenants(kind: Kind)
    ensures OfKind(AllNames([]), kind) == multiset{}
  {
  }

  /** Names and more names without repetition. */
  lemma SumDistinct(a: seq<string>, m: multiset<string>)
    ensures Distinct(multiset(a) + m) <==> (forall i, j :: 0 <= i < j < |a| ==> a[i] != a[j]) && Distinct(m) && forall x <- a :: x !in m
  {
    var sum := multiset(a) + m;
    OnceEach(a);
    if Distinct(sum) {
      DistinctPart(multiset(a), m);
      forall x <- a ensures multiset(a)[x] == 1 && x !in m {
        assert x in multiset(a) && x in sum && sum[x] == 1;
      }
    }
    if (forall x <- a :: multiset(a)[x] == 1) && Distinct(m) && forall x <- a :: x !in m {
      forall x <- sum ensures sum[x] == 1 {
        assert x in multiset(a) <==> x in a;
      }
    }
  }

  lemma {:induction false} OnceIsDistinct(tenants: seq<Tenant>, kind: Kind)
    ensures Distinct(OfKind(AllNames(tenants), kind)) <==> Once(tenants, kind)
    decreases |tenants|
  {
    hide NamesFor, AllNames, Distinct, Once;
    if tenants == [] {
      NoTenants(kind);
      assert Distinct(multiset{}) && Once([], kind) by { NothingTwice(kind); }
    } else {
      var first, rest := NamesFor(tenants[0], kind), tenants[1..];
      OnceIsDistinct(rest, kind);
      FirstTenant(tenants, kind);
      SumDistinct(first, OfKind(AllNames(rest), kind));
      forall x ensures x in OfKind(AllNames(rest), kind) <==> exists i :: 0 <= i < |rest| && x in NamesFor(rest[i], kind) {
        NamesIn(rest, kind, x);
      }
      OnceSplits(tenants, kind);
    }
  }

  lemma NothingTwice(kind: Kind)
    ensures Distinct(multiset{}) && Once([], kind)
  {
  }

  lemma OnceSplits(tenants: seq<Tenant>, kind: Kind)
    requires tenants != []
    ensures var first, rest := NamesFor(tenants[0], kind), tenants[1..];
            Once(tenants, kind) <==> (forall i, j :: 0 <= i < j < |first| ==> first[i] != first[j]) && Once(rest, kind)
                                     && forall x <- first :: !exists i :: 0 <= i < |rest| && x in NamesFor(rest[i], kind)
  {
    hide NamesFor;
    var first, rest := NamesFor(tenants[0], kind), tenants[1..];
    assert forall i :: 0 <= i < |rest| ==> rest[i] == tenants[i + 1];
    if Once(tenants, kind) {
      OnceInRest(tenants, kind);
      forall x, i | x in first && 0 <= i < |rest| ensures x !in NamesFor(rest[i], kind) {
        var k :| 0 <= k < |first| && first[k] == x;
        var theirs := NamesFor(tenants[i + 1], kind);
        forall l | 0 <= l < |theirs| ensures theirs[l] != x {
          assert NamesFor(tenants[0], kind)[k] == x && NamesFor(tenants[i + 1], kind)[l] == theirs[l];
        }
      }
    }
    if (forall i, j :: 0 <= i < j < |first| ==> first[i] != first[j]) && Once(rest, kind)
       && forall x <- first :: !exists i :: 0 <= i < |rest| && x in NamesFor(rest[i], kind) {
      OnceTogether(tenants, kind);
    }
  }

  lemma OnceInRest(tenants: seq<Tenant>, kind: Kind)
    requires tenants != [] && Once(tenants, kind)
    ensures Once(tenants[1..], kind)
  {
    hide NamesFor;
    var rest := tenants[1..];
    forall i, k, j, l | 0 <= i < |rest| && 0 <= j < |rest| && 0 <= k < |NamesFor(rest[i], kind)| && 0 <= l < |NamesFor(rest[j], kind)|
      && NamesFor(rest[i], kind)[k] == NamesFor(rest[j], kind)[l] ensures i == j && k == l {
      assert rest[i] == tenants[i + 1] && rest[j] == tenants[j + 1];
    }
  }

  lemma OnceTogether(tenants: seq<Tenant>, kind: Kind)
    requires tenants != [] && Once(tenants[1..], kind)
    requires var first := NamesFor(tenants[0], kind); forall i, j :: 0 <= i < j < |first| ==> first[i] != first[j]
    requires forall x <- NamesFor(tenants[0], kind) :: !exists i :: 0 <= i < |tenants[1..]| && x in NamesFor(tenants[1..][i], kind)
    ensures Once(tenants, kind)
  {
    hide NamesFor;
    var first, rest := NamesFor(tenants[0], kind), tenants[1..];
    forall i, k, j, l | 0 <= i < |tenants| && 0 <= j < |tenants| && 0 <= k < |NamesFor(tenants[i], kind)| && 0 <= l < |NamesFor(tenants[j], kind)|
      && NamesFor(tenants[i], kind)[k] == NamesFor(tenants[j], kind)[l] ensures i == j && k == l {
      var x := NamesFor(tenants[i], kind)[k];
      assert i > 0 ==> rest[i - 1] == tenants[i];
      assert j > 0 ==> rest[j - 1] == tenants[j];
      assert i == 0 ==> x in first;
      assert j == 0 ==> x in first;
    }
  }

  // ---------------------------------------------------------------- the main results

  /** A catalog is valid exactly when every name is used once in it per kind and every team, entry and service keeps the rules. */
  lemma ValidExactly(paths: set<Path>, tenants: seq<Tenant>)
    ensures Valid(paths, tenants) <==>
              Once(tenants, Teams) && Once(tenants, Databases) && Once(tenants, Applications) && Once(tenants, Services)
              && forall t <- tenants :: TenantRules(paths, t)
  {
    hide Once, TenantOk, TenantRules, Distinct, AllNames;
    OnceIsDistinct(tenants, Teams);
    OnceIsDistinct(tenants, Databases);
    OnceIsDistinct(tenants, Applications);
    OnceIsDistinct(tenants, Services);
    forall t ensures TenantOk(paths, t) <==> TenantRules(paths, t) {
      TenantIs(paths, t);
    }
  }

  /** What a request of each operation must say. */
  ghost predicate Says(q: Request) {
    var p := q.p;
    match q.operation
    case TeamCreate => p.team == "" && Label(p.name, 58) && Owners(p.owners) && |p.repositories| > 0
    case TeamUpdate => p.team == "" && Label(p.name, 58) && Owners(p.owners) && |p.repositories| > 0
    case TeamDelete => p.team == ""
    case TeamFinalize => p.team == "" && Uuid(p.deletionRequest)
    case AppCreate => Label(p.team, 58) && Runs(p)
    case AppUpdate => Label(p.team, 58) && Runs(p)
    case AppDelete => Label(p.team, 58)
    case AppFinalize => Label(p.team, 58) && Uuid(p.deletionRequest)
    case DatabaseCreate => Label(p.team, 58) && Stores(p)
    case DatabaseUpdate => Label(p.team, 58) && Stores(p)
    case DatabaseRestore => Label(p.team, 58) && Stores(p) && |p.source| > 0
    case DatabaseDelete => Label(p.team, 58)
    case DatabaseFinalize => Label(p.team, 58) && Uuid(p.deletionRequest)
    case ServiceScaffold =>
      && Label(p.team, 58) && Label(p.name, 48) && p.template != NoTemplate && p.version == Version(0, 1, 0)
      && (p.template != FullStack ==> !p.withDatabase) && (p.team != p.name ==> !p.createTeam)
    case ServiceActivate => Label(p.team, 58) && Label(p.name, 48) && p.version.Version?
    case ServiceRetire => Label(p.team, 58) && Label(p.name, 48)
    case ServiceFinalize => Label(p.team, 58) && Label(p.name, 48) && Uuid(p.deletionRequest)
  }

  ghost predicate Runs(p: Parameters) {
    |p.owner| > 0 && |p.image| > 0 && |p.tag| > 0 && 0 < p.port < 65536 && 0 < p.min && p.min <= p.max && p.max <= 100
  }

  ghost predicate Stores(p: Parameters) { p.instances in {1, 2, 3} && p.size.amount.Some? && 1073741824 <= p.size.amount.value }

  /** A request is taken exactly when it has an ID, a name and what its operation asks for. */
  lemma RequestOkExactly(q: Request)
    ensures RequestOk(q) <==> q.wellFormed && Uuid(q.id) && Label(q.p.name, 63) && Says(q)
  {
    hide ValidName, Label, IsUuid, Uuid, OwnersOk, Owners;
    UuidIs(q.id);
    UuidIs(q.p.deletionRequest);
    LabelIs(q.p.name, 63);
    LabelIs(q.p.name, 58);
    LabelIs(q.p.name, 48);
    LabelIs(q.p.team, 58);
    OwnersAre(q.p.owners);
  }
}
