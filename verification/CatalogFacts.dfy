/** Facts about lists of entries and about the names a catalog uses. */
module CatalogFacts {
  import opened Catalog
  import opened CatalogValidation

  // ---------------------------------------------------------------- repetition

  lemma TwiceIn<T>(s: seq<T>, i: nat, j: nat)
    requires i < j < |s| && s[i] == s[j]
    ensures multiset(s)[s[i]] >= 2
  {
    assert s == s[..i] + [s[i]] + s[i + 1..j] + [s[j]] + s[j + 1..];
    assert multiset(s) == multiset(s[..i]) + multiset{s[i]} + multiset(s[i + 1..j]) + multiset{s[j]} + multiset(s[j + 1..]);
  }

  lemma {:induction false} OnceIn<T>(s: seq<T>, x: T)
    requires forall i, j :: 0 <= i < j < |s| ==> s[i] != s[j]
    ensures multiset(s)[x] <= 1
  {
    if s != [] {
      var rest := s[..|s| - 1];
      OnceIn(rest, x);
      assert s == rest + [s[|s| - 1]];
      if s[|s| - 1] == x {
        assert x !in rest;
        assert x !in multiset(rest);
      }
    }
  }

  // ---------------------------------------------------------------- sorting and filtering

  // ---------------------------------------------------------------- sorting

  ghost predicate Sorted<T>(items: seq<T>, key: T -> string) {
    forall i, j :: 0 <= i < j < |items| ==> !Before(key(items[j]), key(items[i]))
  }

  lemma {:induction false} NotBeforeTrans(a: string, b: string, c: string)
    requires !Before(b, a) && !Before(c, b)
    ensures !Before(c, a)
    decreases |a|
  {
    if a != "" && c != "" && b != "" && a[0] == b[0] == c[0] {
      NotBeforeTrans(a[1..], b[1..], c[1..]);
    }
  }

  lemma {:induction false} BeforeIsOneWay(a: string, b: string)
    requires Before(a, b)
    ensures !Before(b, a)
    decreases |a|
  {
    if a != "" && a[0] == b[0] {
      BeforeIsOneWay(a[1..], b[1..]);
    }
  }

  lemma {:induction false} InsertSorted<T>(item: T, items: seq<T>, key: T -> string)
    requires Sorted(items, key)
    ensures Sorted(Insert(item, items, key), key)
    decreases |items|
  {
    hide Before;
    if items != [] {
      var r := Insert(item, items, key);
      if Before(key(items[0]), key(item)) {
        InsertSorted(item, items[1..], key);
        BeforeIsOneWay(key(items[0]), key(item));
        forall j | 0 < j < |r| ensures !Before(key(r[j]), key(items[0])) {
          assert r[j] in multiset(r[1..]);
          assert r[j] == item || r[j] in items[1..];
        }
      } else {
        forall j | 0 < j < |r| ensures !Before(key(r[j]), key(item)) {
          assert r[j] == items[j - 1];
          if j > 1 { NotBeforeTrans(key(item), key(items[0]), key(items[j - 1])); }
        }
      }
    }
  }

  /** Sorting by a name leaves the names in order. */
  lemma {:induction false} SortBySorts<T>(items: seq<T>, key: T -> string)
    ensures Sorted(SortBy(items, key), key)
    decreases |items|
  {
    hide Before;
    if items != [] {
      SortBySorts(items[1..], key);
      InsertSorted(items[0], SortBy(items[1..], key), key);
    }
  }

  lemma SortedMembers<T>(items: seq<T>, key: T -> string, x: T)
    ensures x in SortBy(items, key) <==> x in items
  {
    hide SortBy;
    assert x in items <==> x in multiset(items);
    assert x in SortBy(items, key) <==> x in multiset(SortBy(items, key));
  }

  lemma {:induction false} InsertNames<T>(item: T, items: seq<T>, key: T -> string)
    ensures NamesOf(Insert(item, items, key), key) == NamesOf(items, key) + multiset{key(item)}
  {
    hide Before;
    if items == [] {
      NamesOne(item, key);
    } else if Before(key(items[0]), key(item)) {
      InsertNames(item, items[1..], key);
      var r := Insert(item, items, key);
      assert r[1..] == Insert(item, items[1..], key);
    } else {
      assert ([item] + items)[1..] == items;
    }
  }

  lemma {:induction false} SortedNames<T>(items: seq<T>, key: T -> string)
    ensures NamesOf(SortBy(items, key), key) == NamesOf(items, key)
  {
    if items != [] {
      SortedNames(items[1..], key);
      InsertNames(items[0], SortBy(items[1..], key), key);
    }
  }

  lemma {:induction false} KeptNames<T(!new)>(items: seq<T>, key: T -> string, names: seq<string>, x: string)
    ensures NamesOf(Without(items, key, names), key)[x] == if x in names then 0 else NamesOf(items, key)[x]
  {
    if items != [] {
      KeptNames(items[1..], key, names, x);
      if key(items[0]) !in names {
        assert ([items[0]] + Without(items[1..], key, names))[1..] == Without(items[1..], key, names);
      }
    }
  }

  /** A name is in use exactly when some item has it. */
  lemma {:induction false} UsedBySome<T>(items: seq<T>, key: T -> string, name: string)
    ensures name in NamesOf(items, key) <==> exists i :: 0 <= i < |items| && key(items[i]) == name
  {
    if items != [] {
      UsedBySome(items[1..], key, name);
      if name in NamesOf(items[1..], key) {
        var i :| 0 <= i < |items[1..]| && key(items[1..][i]) == name;
        assert key(items[i + 1]) == name;
      }
      if exists i :: 0 < i < |items| && key(items[i]) == name {
        var i :| 0 < i < |items| && key(items[i]) == name;
        assert items[1..][i - 1] == items[i];
      }
    }
  }

  predicate DistinctBy<T>(items: seq<T>, key: T -> string) {
    forall i, j :: 0 <= i < j < |items| ==> key(items[i]) != key(items[j])
  }

  lemma {:induction false} UniqueItems<T>(items: seq<T>, key: T -> string)
    requires Distinct(NamesOf(items, key))
    ensures DistinctBy(items, key)
  {
    if items != [] {
      DistinctPart(multiset{key(items[0])}, NamesOf(items[1..], key));
      UniqueItems(items[1..], key);
      UsedBySome(items[1..], key, key(items[0]));
      assert NamesOf(items, key)[key(items[0])] == 1;
      forall i, j | 0 <= i < j < |items| ensures key(items[i]) != key(items[j]) {
        assert items[j] == items[1..][j - 1];
        if i > 0 {
          assert items[i] == items[1..][i - 1];
        }
      }
    }
  }

  /** With distinct names, the first match is the only one. */
  lemma OnlyMatch<T>(items: seq<T>, key: T -> string, j: nat)
    requires DistinctBy(items, key) && j < |items|
    ensures Index(items, key, key(items[j])) == j
  {
    hide Index;
    var i := Index(items, key, key(items[j]));
  }

  lemma FoundBy<T>(items: seq<T>, key: T -> string, name: string)
    ensures Index(items, key, name) < 0 <==> forall i :: 0 <= i < |items| ==> key(items[i]) != name
  {
    hide Index;
    var i := Index(items, key, name);
  }

  // ---------------------------------------------------------------- names of a catalog

  lemma JoinLaws(a: Names, b: Names, c: Names)
    ensures Join(a, b) == Join(b, a)
    ensures Join(a, Join(b, c)) == Join(Join(a, b), c) == Join(Join(a, c), b)
    ensures Contains(Join(a, b), a) && Contains(Join(a, b), b)
    ensures Contains(a, c) ==> Contains(Join(a, b), c) && Contains(Join(b, a), c)
  {
  }

  lemma AroundOne(a: seq<Tenant>, t: Tenant, b: seq<Tenant>)
    ensures AllNames(a + ([t] + b)) == Join(Join(AllNames(a), AllNames(b)), TenantNames(t))
  {
    hide TenantNames, Join, AllNames;
    AllNamesAppend(a, [t] + b);
    AllNamesAppend([t], b);
    AllNamesOne(t);
    JoinLaws(TenantNames(t), AllNames(b), NO_NAMES);
    JoinLaws(AllNames(a), AllNames(b), TenantNames(t));
  }

  /** Replacing one tenant exchanges its names and no others. */
  lemma Exchange(tenants: seq<Tenant>, i: nat, t: Tenant) returns (others: Names)
    requires i < |tenants|
    ensures AllNames(tenants) == Join(others, TenantNames(tenants[i])) && AllNames(tenants[i := t]) == Join(others, TenantNames(t))
    ensures forall k :: 0 <= k < |tenants| && k != i ==> Contains(others, TenantNames(tenants[k]))
  {
    hide TenantNames, Join, AllNames, Contains;
    var a, b := tenants[..i], tenants[i + 1..];
    others := Join(AllNames(a), AllNames(b));
    assert tenants == a + ([tenants[i]] + b) && tenants[i := t] == a + ([t] + b);
    AroundOne(a, tenants[i], b);
    AroundOne(a, t, b);
    forall k | 0 <= k < |tenants| && k != i ensures Contains(others, TenantNames(tenants[k])) {
      if k < i {
        PartOf(a, k);
        JoinLaws(AllNames(a), AllNames(b), TenantNames(tenants[k]));
      } else {
        PartOf(b, k - i - 1);
        JoinLaws(AllNames(b), AllNames(a), TenantNames(tenants[k]));
      }
    }
  }

  predicate Contains(a: Names, b: Names) {
    b.teams <= a.teams && b.databases <= a.databases && b.applications <= a.applications && b.services <= a.services
  }

  lemma PartOf(tenants: seq<Tenant>, k: nat)
    requires k < |tenants|
    ensures Contains(AllNames(tenants), TenantNames(tenants[k]))
  {
    hide TenantNames, Join, AllNames, Contains;
    assert tenants == tenants[..k] + ([tenants[k]] + tenants[k + 1..]);
    AroundOne(tenants[..k], tenants[k], tenants[k + 1..]);
    var others := Join(AllNames(tenants[..k]), AllNames(tenants[k + 1..]));
    JoinLaws(others, TenantNames(tenants[k]), NO_NAMES);
  }

  lemma SmallerIsDistinct(a: multiset<string>, b: multiset<string>)
    requires a <= b && Distinct(b)
    ensures Distinct(a)
  {
    assert b == a + (b - a);
    DistinctPart(a, b - a);
  }

  lemma SmallerIsUnique(a: Names, b: Names)
    requires Contains(b, a) && UniqueNames(b)
    ensures UniqueNames(a)
  {
    hide Distinct;
    SmallerIsDistinct(a.teams, b.teams);
    SmallerIsDistinct(a.databases, b.databases);
    SmallerIsDistinct(a.applications, b.applications);
    SmallerIsDistinct(a.services, b.services);
  }

  lemma {:induction false} InsertedTenantNames(t: Tenant, tenants: seq<Tenant>)
    ensures AllNames(Insert(t, tenants, TenantName)) == Join(AllNames(tenants), TenantNames(t))
  {
    hide Before, TenantNames, Join;
    if tenants == [] {
      AllNamesOne(t);
      JoinLaws(NO_NAMES, TenantNames(t), NO_NAMES);
      NoNames(TenantNames(t));
    } else if Before(tenants[0].name, t.name) {
      InsertedTenantNames(t, tenants[1..]);
      assert Insert(t, tenants, TenantName)[1..] == Insert(t, tenants[1..], TenantName);
      JoinLaws(TenantNames(tenants[0]), AllNames(tenants[1..]), TenantNames(t));
    } else {
      assert ([t] + tenants)[1..] == tenants;
      JoinLaws(AllNames(tenants), TenantNames(t), NO_NAMES);
    }
  }

  lemma NoNames(a: Names)
    ensures Join(NO_NAMES, a) == a
  {
  }

  lemma {:induction false} SortedTenantNames(tenants: seq<Tenant>)
    ensures AllNames(SortBy(tenants, TenantName)) == AllNames(tenants)
  {
    hide TenantNames, Join;
    if tenants != [] {
      SortedTenantNames(tenants[1..]);
      InsertedTenantNames(tenants[0], SortBy(tenants[1..], TenantName));
      JoinLaws(TenantNames(tenants[0]), AllNames(tenants[1..]), NO_NAMES);
    }
  }

  lemma {:induction false} FewerTenantNames(tenants: seq<Tenant>, names: seq<string>)
    ensures Contains(AllNames(tenants), AllNames(Without(tenants, TenantName, names)))
  {
    hide TenantNames;
    if tenants != [] {
      FewerTenantNames(tenants[1..], names);
      if tenants[0].name !in names {
        assert ([tenants[0]] + Without(tenants[1..], TenantName, names))[1..] == Without(tenants[1..], TenantName, names);
      }
    }
  }

  // ---------------------------------------------------------------- one owner for every leaf

  predicate TenantHas(t: Tenant, leaf: Leaf) {
    match leaf
    case TeamLeaf(name) => t.name == name
    case AppLeaf(name) => HasEntry(t.applications, name)
    case DatabaseLeaf(name) => HasEntry(t.databases, name)
  }

  predicate TenantHasService(t: Tenant, name: string) { exists s <- t.services :: s.name == name }

  ghost predicate Separate(tenants: seq<Tenant>) {
    && (forall t <- tenants :: DistinctBy(t.applications, EntryName) && DistinctBy(t.databases, EntryName) && DistinctBy(t.services, ServiceName))
    && (forall i, k, leaf :: 0 <= i < |tenants| && 0 <= k < |tenants| && TenantHas(tenants[i], leaf) && TenantHas(tenants[k], leaf) ==> i == k)
    && (forall i, k, name :: 0 <= i < |tenants| && 0 <= k < |tenants| && TenantHasService(tenants[i], name) && TenantHasService(tenants[k], name) ==> i == k)
  }

  lemma LeafIsNamed(t: Tenant, leaf: Leaf)
    requires TenantHas(t, leaf)
    ensures match leaf
            case TeamLeaf(name) => name in TenantNames(t).teams
            case AppLeaf(name) => name in TenantNames(t).applications
            case DatabaseLeaf(name) => name in TenantNames(t).databases
  {
    UsedBySome(t.applications, EntryName, leaf.name);
    UsedBySome(t.databases, EntryName, leaf.name);
  }

  lemma ServiceIsNamed(t: Tenant, name: string)
    requires TenantHasService(t, name)
    ensures name in TenantNames(t).services
  {
    UsedBySome(t.services, ServiceName, name);
  }

  lemma NoSharedName(a: multiset<string>, b: multiset<string>, x: string)
    requires Distinct(a + b) && x in b
    ensures x !in a
  {
    assert (a + b)[x] == 1;
  }

  /** Unique names give every leaf and every service at most one tenant. */
  lemma UniqueIsSeparate(tenants: seq<Tenant>)
    requires UniqueNames(AllNames(tenants))
    ensures Separate(tenants)
  {
    hide TenantNames, TenantHas, TenantHasService, Distinct, DistinctBy, NamesOf, AllNames;
    forall t <- tenants ensures DistinctBy(t.applications, EntryName) && DistinctBy(t.databases, EntryName) && DistinctBy(t.services, ServiceName) {
      var i :| 0 <= i < |tenants| && tenants[i] == t;
      PartOf(tenants, i);
      DistinctTenant(t, AllNames(tenants));
    }
    forall i, k, leaf | 0 <= i < |tenants| && 0 <= k < |tenants| && TenantHas(tenants[i], leaf) && TenantHas(tenants[k], leaf) ensures i == k {
      if i != k {
        NotInTwo(tenants, i, k, leaf);
      }
    }
    forall i, k, name | 0 <= i < |tenants| && 0 <= k < |tenants| && TenantHasService(tenants[i], name) && TenantHasService(tenants[k], name) ensures i == k {
      if i != k {
        NoServiceInTwo(tenants, i, k, name);
      }
    }
  }

  lemma DistinctTenant(t: Tenant, names: Names)
    requires UniqueNames(names) && Contains(names, TenantNames(t))
    ensures DistinctBy(t.applications, EntryName) && DistinctBy(t.databases, EntryName) && DistinctBy(t.services, ServiceName)
  {
    hide Distinct, DistinctBy, NamesOf;
    SmallerIsUnique(TenantNames(t), names);
    UniqueItems(t.applications, EntryName);
    UniqueItems(t.databases, EntryName);
    UniqueItems(t.services, ServiceName);
  }

  lemma NotInTwo(tenants: seq<Tenant>, i: nat, k: nat, leaf: Leaf)
    requires i < |tenants| && k < |tenants| && i != k && UniqueNames(AllNames(tenants))
    ensures !(TenantHas(tenants[i], leaf) && TenantHas(tenants[k], leaf))
  {
    hide TenantNames, TenantHas, Distinct;
    var others := Exchange(tenants, i, tenants[i]);
    if TenantHas(tenants[i], leaf) && TenantHas(tenants[k], leaf) {
      LeafIsNamed(tenants[i], leaf);
      LeafIsNamed(tenants[k], leaf);
      var mine := TenantNames(tenants[i]);
      match leaf {
        case TeamLeaf(name) => NoSharedName(others.teams, mine.teams, name);
        case AppLeaf(name) => NoSharedName(others.applications, mine.applications, name);
        case DatabaseLeaf(name) => NoSharedName(others.databases, mine.databases, name);
      }
    }
  }

  lemma NoServiceInTwo(tenants: seq<Tenant>, i: nat, k: nat, name: string)
    requires i < |tenants| && k < |tenants| && i != k && UniqueNames(AllNames(tenants))
    ensures !(TenantHasService(tenants[i], name) && TenantHasService(tenants[k], name))
  {
    hide TenantNames, TenantHasService, Distinct;
    var others := Exchange(tenants, i, tenants[i]);
    if TenantHasService(tenants[i], name) && TenantHasService(tenants[k], name) {
      ServiceIsNamed(tenants[i], name);
      ServiceIsNamed(tenants[k], name);
      NoSharedName(others.services, TenantNames(tenants[i]).services, name);
    }
  }
}
