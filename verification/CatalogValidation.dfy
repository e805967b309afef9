/** Validation of a catalog against the directories of the repository, with the
    sets of names seen so far. */
module CatalogValidation {
  import opened Catalog

  /** A set of names and the list it came from: no name twice. */
  ghost predicate Seen(seen: set<string>, names: multiset<string>) {
    Distinct(names) && forall x :: x in seen <==> x in names
  }

  lemma SeenMore(seen: set<string>, names: multiset<string>, name: string)
    requires Seen(seen, names)
    ensures name !in seen ==> Seen(seen + {name}, names + multiset{name})
    ensures name in seen ==> !Distinct(names + multiset{name})
  {
    if name in seen {
      assert (names + multiset{name})[name] == 2;
    }
  }

  lemma {:induction false} NamesAppend<T>(a: seq<T>, b: seq<T>, key: T -> string)
    ensures NamesOf(a + b, key) == NamesOf(a, key) + NamesOf(b, key)
  {
    if a == [] {
      assert a + b == b;
    } else {
      assert (a + b)[1..] == a[1..] + b;
      NamesAppend(a[1..], b, key);
    }
  }

  lemma NamesOne<T>(item: T, key: T -> string)
    ensures NamesOf([item], key) == multiset{key(item)}
  {
    assert [item][1..] == [];
  }

  lemma {:induction false} AllNamesAppend(a: seq<Tenant>, b: seq<Tenant>)
    ensures AllNames(a + b) == Join(AllNames(a), AllNames(b))
  {
    hide TenantNames;
    if a == [] {
      assert a + b == b;
    } else {
      assert (a + b)[1..] == a[1..] + b;
      AllNamesAppend(a[1..], b);
    }
  }

  lemma AllNamesOne(t: Tenant)
    ensures AllNames([t]) == TenantNames(t)
  {
    hide TenantNames;
    assert [t][1..] == [];
  }

  /** More names only make duplicates likelier. */
  lemma DistinctPart(a: multiset<string>, b: multiset<string>)
    requires Distinct(a + b)
    ensures Distinct(a) && Distinct(b)
  {
    forall x <- a ensures a[x] == 1 {
      assert (a + b)[x] == 1;
    }
    forall x <- b ensures b[x] == 1 {
      assert (a + b)[x] == 1;
    }
  }

  lemma CutAt<T>(items: seq<T>, k: nat)
    requires k <= |items|
    ensures items == items[..k] + items[k..]
  {
  }

  /** No item of a list has a name that was seen before it. */
  method SeeNames<T>(items: seq<T>, key: T -> string, seen: set<string>, ghost names: multiset<string>) returns (ok: bool, seenNow: set<string>)
    requires Seen(seen, names)
    ensures ok <==> Distinct(names + NamesOf(items, key))
    ensures ok ==> Seen(seenNow, names + NamesOf(items, key))
  {
    hide Seen, Distinct;
    seenNow := seen;
    var k := 0;
    assert names + multiset{} == names;
    while k < |items|
      invariant 0 <= k <= |items| && Seen(seenNow, names + NamesOf(items[..k], key))
    {
      ghost var before := names + NamesOf(items[..k], key);
      SeenMore(seenNow, before, key(items[k]));
      assert items[..k + 1] == items[..k] + [items[k]];
      NamesAppend(items[..k], [items[k]], key);
      NamesOne(items[k], key);
      assert before + multiset{key(items[k])} == names + NamesOf(items[..k + 1], key);
      if key(items[k]) in seenNow {
        CutAt(items, k + 1);
        NamesAppend(items[..k + 1], items[k + 1..], key);
        assert names + NamesOf(items, key) == (names + NamesOf(items[..k + 1], key)) + NamesOf(items[k + 1..], key);
        Contrapose(names + NamesOf(items[..k + 1], key), NamesOf(items[k + 1..], key));
        return false, seenNow;
      }
      seenNow := seenNow + {key(items[k])};
      k := k + 1;
    }
    assert items[..k] == items;
    SeenIsDistinct(seenNow, names + NamesOf(items, key));
    ok := true;
  }

  lemma Contrapose(a: multiset<string>, b: multiset<string>)
    ensures !Distinct(a) ==> !Distinct(a + b)
  {
    if Distinct(a + b) {
      DistinctPart(a, b);
    }
  }

  lemma SeenIsDistinct(seen: set<string>, names: multiset<string>)
    requires Seen(seen, names)
    ensures Distinct(names)
  {
  }

  // ---------------------------------------------------------------- the whole catalog

  /** The names seen in all tenants so far, by kind. */
  datatype SeenNames = SeenNames(teams: set<string>, databases: set<string>, applications: set<string>, services: set<string>)

  ghost predicate SeenAll(seen: SeenNames, names: Names) {
    && Seen(seen.teams, names.teams) && Seen(seen.databases, names.databases)
    && Seen(seen.applications, names.applications) && Seen(seen.services, names.services)
  }

  method SeeTenant(t: Tenant, seen: SeenNames, ghost names: Names) returns (ok: bool, seenNow: SeenNames)
    requires SeenAll(seen, names)
    ensures ok <==> UniqueNames(Join(names, TenantNames(t)))
    ensures ok ==> SeenAll(seenNow, Join(names, TenantNames(t)))
  {
    hide Seen, Distinct, NamesOf;
    seenNow := seen;
    SeenMore(seen.teams, names.teams, t.name);
    ok := t.name !in seen.teams;
    if !ok {
      return;
    }
    seenNow := seenNow.(teams := seenNow.teams + {t.name});
    SeenIsDistinct(seenNow.teams, names.teams + multiset{t.name});
    var databases, applications, services;
    ok, databases := SeeNames(t.databases, EntryName, seen.databases, names.databases);
    if !ok {
      return;
    }
    ok, applications := SeeNames(t.applications, EntryName, seen.applications, names.applications);
    if !ok {
      return;
    }
    ok, services := SeeNames(t.services, ServiceName, seen.services, names.services);
    if !ok {
      return;
    }
    seenNow := seenNow.(databases := databases, applications := applications, services := services);
  }

  lemma NothingSeen()
    ensures SeenAll(SeenNames({}, {}, {}, {}), AllNames([])) && UniqueNames(AllNames([]))
  {
  }

  /** Names that repeat in a part repeat in the whole. */
  lemma UniqueParts(a: Names, b: Names)
    requires UniqueNames(Join(a, b))
    ensures UniqueNames(a)
  {
    hide Distinct;
    DistinctPart(a.teams, b.teams);
    DistinctPart(a.databases, b.databases);
    DistinctPart(a.applications, b.applications);
    DistinctPart(a.services, b.services);
  }

  lemma UniquePrefix(tenants: seq<Tenant>, k: nat)
    requires k <= |tenants| && UniqueNames(AllNames(tenants))
    ensures UniqueNames(AllNames(tenants[..k]))
  {
    hide UniqueNames;
    assert tenants == tenants[..k] + tenants[k..];
    AllNamesAppend(tenants[..k], tenants[k..]);
    UniqueParts(AllNames(tenants[..k]), AllNames(tenants[k..]));
  }

  method Validate(paths: set<Path>, tenants: seq<Tenant>) returns (ok: bool)
    ensures ok <==> Valid(paths, tenants)
  {
    hide SeenAll, UniqueNames, AllNames, TenantOk;
    var seen := SeenNames({}, {}, {}, {});
    NothingSeen();
    assert tenants[..0] == [];
    var i := 0;
    while i < |tenants|
      invariant 0 <= i <= |tenants| && SeenAll(seen, AllNames(tenants[..i])) && UniqueNames(AllNames(tenants[..i]))
      invariant forall t <- tenants[..i] :: TenantOk(paths, t)
    {
      assert tenants[..i + 1] == tenants[..i] + [tenants[i]];
      AllNamesAppend(tenants[..i], [tenants[i]]);
      AllNamesOne(tenants[i]);
      ok := TenantOk(paths, tenants[i]);
      if !ok {
        assert tenants[i] in tenants;
        return;
      }
      ok, seen := SeeTenant(tenants[i], seen, AllNames(tenants[..i]));
      if !ok {
        if UniqueNames(AllNames(tenants)) {
          UniquePrefix(tenants, i + 1);
        }
        return;
      }
      i := i + 1;
    }
    assert tenants[..i] == tenants;
    ok := true;
  }
}
