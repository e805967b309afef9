/** The in-place filter of a finalization, which compares every name with the one it
    reads through a pointer into the slots it is overwriting. */
module Compaction {
  import opened Catalog
  import opened CatalogFacts

  /** The items whose name differs from `name`. */
  function Others<T>(items: seq<T>, key: T -> string, name: string): (r: seq<T>)
    ensures |r| <= |items|
  {
    if items == [] then []
    else
      var rest := Others(items[..|items| - 1], key, name);
      if key(items[|items| - 1]) == name then rest else rest + [items[|items| - 1]]
  }

  /** The first position after `from` whose name differs, or the length. */
  function NextOther<T>(items: seq<T>, key: T -> string, name: string, from: nat): (j: nat)
    requires from <= |items|
    ensures from <= j <= |items| && (forall i :: from <= i < j ==> key(items[i]) == name) && (j < |items| ==> key(items[j]) != name)
    decreases |items| - from
  {
    if from == |items| || key(items[from]) != name then from else NextOther(items, key, name, from + 1)
  }

  /** What the loop leaves: up to the first survivor behind slot `k` it filters by the
      name that was there, after that by the survivor's. */
  function Compacted<T>(items: seq<T>, key: T -> string, k: nat): seq<T>
    requires k < |items|
  {
    var j := NextOther(items, key, key(items[k]), k);
    if j == |items| then items[..k] else Behind(items, key, k, j, key(items[j]))
  }

  /** The items before `k`, the survivor at `j`, and those behind it without a name. */
  function Behind<T>(items: seq<T>, key: T -> string, k: nat, j: nat, name: string): seq<T>
    requires k < j < |items|
  {
    items[..k] + [items[j]] + Others(items[j + 1..], key, name)
  }

  predicate NoMore<T>(items: seq<T>, key: T -> string, a: string, b: string) {
    forall i :: 0 <= i < |items| ==> key(items[i]) != a && key(items[i]) != b
  }

  /** Neither the removed name nor the survivor's comes again after the survivor. */
  predicate ReadsTheSameName<T>(items: seq<T>, key: T -> string, k: nat)
    requires k < |items|
  {
    var j := NextOther(items, key, key(items[k]), k);
    j == |items| || NoMore(items[j + 1..], key, key(items[k]), key(items[j]))
  }

  /** `k` is the first slot of its name, as a lookup finds it. */
  method CompactInPlace<T>(slots: array<T>, key: T -> string, k: nat) returns (kept: nat)
    requires k < slots.Length && forall i :: 0 <= i < k ==> key(slots[i]) != key(slots[k])
    modifies slots
    ensures kept <= slots.Length && slots[..kept] == Compacted(old(slots[..]), key, k)
  {
    hide Compacted, Progress, Current;
    ghost var was := slots[..];
    kept := 0;
    var i := 0;
    AtStart(was, key, k);
    while i < slots.Length
      invariant 0 <= kept <= i <= slots.Length && slots[i..] == was[i..]
      invariant slots[..kept] == Progress(was, key, k, i)
      invariant key(slots[k]) == Current(was, key, k, i)
    {
      var candidate := slots[i];
      assert candidate == slots[i..][0] == was[i];
      OneMore(was, key, k, i);
      if key(candidate) != key(slots[k]) {
        ghost var before := slots[..kept];
        slots[kept] := candidate;
        assert slots[..kept + 1] == before + [candidate];
        kept := kept + 1;
      }
      i := i + 1;
    }
    AllDone(was, key, k);
  }

  /** The kept prefix after `i` reads. */
  ghost function Progress<T>(items: seq<T>, key: T -> string, k: nat, i: nat): seq<T>
    requires k < |items| && i <= |items|
  {
    if i <= k then items[..i]
    else
      var j := NextOther(items, key, key(items[k]), k);
      if i <= j then items[..k] else BehindUpTo(items, key, k, j, i)
  }

  ghost function BehindUpTo<T>(items: seq<T>, key: T -> string, k: nat, j: nat, i: nat): (r: seq<T>)
    requires k < j < i <= |items|
    ensures |r| > k
  {
    items[..k] + [items[j]] + Others(items[j + 1..i], key, key(items[j]))
  }

  /** The name slot `k` holds after `i` reads. */
  ghost function Current<T>(items: seq<T>, key: T -> string, k: nat, i: nat): string
    requires k < |items| && i <= |items|
  {
    var j := NextOther(items, key, key(items[k]), k);
    if i <= j then key(items[k]) else key(items[j])
  }

  /** One more read: it is kept unless it has the name slot `k` holds; kept in slot `k`, it is that name. */
  ghost predicate Advances<T>(items: seq<T>, key: T -> string, k: nat, i: nat)
    requires k < |items| && i < |items|
  {
    var p, c := Progress(items, key, k, i), Current(items, key, k, i);
    && Progress(items, key, k, i + 1) == (if key(items[i]) != c then p + [items[i]] else p)
    && Current(items, key, k, i + 1) == (if key(items[i]) != c && |p| == k then key(items[i]) else c)
  }

  lemma AtStart<T>(items: seq<T>, key: T -> string, k: nat)
    requires k < |items|
    ensures Progress(items, key, k, 0) == [] && Current(items, key, k, 0) == key(items[k])
  {
    hide Others, NextOther, BehindUpTo;
  }

  lemma OneMore<T>(items: seq<T>, key: T -> string, k: nat, i: nat)
    requires k < |items| && i < |items| && forall l :: 0 <= l < k ==> key(items[l]) != key(items[k])
    ensures Advances(items, key, k, i)
  {
    hide Others, NextOther, Advances;
    var j := NextOther(items, key, key(items[k]), k);
    if i > j {
      OneMoreLate(items, key, k, i, j);
    } else if i == j {
      FirstSurvivor(items, key, k, j);
    } else if i >= k {
      SameNameSkipped(items, key, k, i, j);
    } else {
      StillBefore(items, key, k, i);
    }
  }

  lemma StillBefore<T>(items: seq<T>, key: T -> string, k: nat, i: nat)
    requires i < k < |items| && key(items[i]) != key(items[k])
    ensures Advances(items, key, k, i)
  {
    hide Others, NextOther, BehindUpTo;
    assert items[..i + 1] == items[..i] + [items[i]];
  }

  lemma SameNameSkipped<T>(items: seq<T>, key: T -> string, k: nat, i: nat, j: nat)
    requires k <= i < j <= |items| && k < |items| && j == NextOther(items, key, key(items[k]), k)
    ensures Advances(items, key, k, i)
  {
    hide Others, NextOther, BehindUpTo;
    assert key(items[i]) == key(items[k]);
  }

  lemma FirstSurvivor<T>(items: seq<T>, key: T -> string, k: nat, j: nat)
    requires k < j < |items| && j == NextOther(items, key, key(items[k]), k)
    ensures Advances(items, key, k, j)
  {
    hide Others, NextOther;
    assert items[j + 1..j + 1] == items[..0];
    OthersOfNone(key, key(items[j]), items);
    assert items[..k] + [items[j]] + [] == items[..k] + [items[j]];
  }

  lemma OneMoreLate<T>(items: seq<T>, key: T -> string, k: nat, i: nat, j: nat)
    requires k < j < i < |items| && j == NextOther(items, key, key(items[k]), k)
    ensures Advances(items, key, k, i)
  {
    hide Others, NextOther, BehindUpTo;
    LateStep(items, key, k, i, j);
  }

  lemma LateStep<T>(items: seq<T>, key: T -> string, k: nat, i: nat, j: nat)
    requires k < j < i < |items|
    ensures BehindUpTo(items, key, k, j, i + 1) ==
            if key(items[i]) != key(items[j]) then BehindUpTo(items, key, k, j, i) + [items[i]] else BehindUpTo(items, key, k, j, i)
  {
    hide Others;
    var head, rest := items[..k] + [items[j]], Others(items[j + 1..i], key, key(items[j]));
    OthersSnoc(items[j + 1..i], items[i], key, key(items[j]));
    assert items[j + 1..i + 1] == items[j + 1..i] + [items[i]];
    assert head + (rest + [items[i]]) == (head + rest) + [items[i]];
  }

  lemma OthersSnoc<T>(items: seq<T>, last: T, key: T -> string, name: string)
    ensures Others(items + [last], key, name) == Others(items, key, name) + if key(last) == name then [] else [last]
  {
    assert (items + [last])[..|items|] == items;
  }

  lemma OthersOfNone<T>(key: T -> string, name: string, items: seq<T>)
    ensures Others(items[..0], key, name) == []
  {
  }

  lemma AllDone<T>(items: seq<T>, key: T -> string, k: nat)
    requires k < |items|
    ensures Progress(items, key, k, |items|) == Compacted(items, key, k)
  {
    var j := NextOther(items, key, key(items[k]), k);
    assert j < |items| ==> items[j + 1..|items|] == items[j + 1..];
    assert items[..|items|] == items;
  }

  // ---------------------------------------------------------------- the filter it was meant to be

  lemma {:induction false} OthersAppend<T>(a: seq<T>, b: seq<T>, key: T -> string, name: string)
    ensures Others(a + b, key, name) == Others(a, key, name) + Others(b, key, name)
    decreases |b|
  {
    if b == [] {
      assert a + b == a;
    } else {
      assert (a + b)[..|a + b| - 1] == a + b[..|b| - 1];
      OthersAppend(a, b[..|b| - 1], key, name);
    }
  }

  lemma {:induction false} OthersAll<T>(items: seq<T>, key: T -> string, name: string)
    ensures |Others(items, key, name)| == |items| <==> forall i :: 0 <= i < |items| ==> key(items[i]) != name
    ensures |Others(items, key, name)| == |items| ==> Others(items, key, name) == items
    decreases |items|
  {
    if items != [] {
      OthersAll(items[..|items| - 1], key, name);
    }
  }

  lemma {:induction false} OthersNone<T>(items: seq<T>, key: T -> string, name: string)
    requires forall i :: 0 <= i < |items| ==> key(items[i]) == name
    ensures Others(items, key, name) == []
    decreases |items|
  {
    if items != [] {
      OthersNone(items[..|items| - 1], key, name);
    }
  }

  /** Two filters of one list agree only if neither drops anything. */
  lemma {:induction false} FiltersAgree<T>(items: seq<T>, key: T -> string, a: string, b: string)
    requires a != b && Others(items, key, a) == Others(items, key, b)
    ensures NoMore(items, key, a, b)
    decreases |items|
  {
    if items != [] {
      var last := items[|items| - 1];
      KeptAreOthers(items, key, a);
      KeptAreOthers(items, key, b);
      if key(last) != a {
        LastKept(items, key, a);
      }
      if key(last) != b {
        LastKept(items, key, b);
      }
      if key(last) != a && key(last) != b {
        var x, y := Others(items[..|items| - 1], key, a), Others(items[..|items| - 1], key, b);
        assert x == (x + [last])[..|x|] && y == (y + [last])[..|y|];
        FiltersAgree(items[..|items| - 1], key, a, b);
      }
    }
  }

  lemma LastKept<T>(items: seq<T>, key: T -> string, name: string)
    requires items != [] && key(items[|items| - 1]) != name
    ensures var kept := Others(items, key, name); kept != [] && kept[|kept| - 1] == items[|items| - 1]
  {
  }

  lemma {:induction false} KeptAreOthers<T>(items: seq<T>, key: T -> string, name: string)
    ensures forall i :: 0 <= i < |Others(items, key, name)| ==> key(Others(items, key, name)[i]) != name
    decreases |items|
  {
    if items != [] {
      KeptAreOthers(items[..|items| - 1], key, name);
    }
  }

  /** The loop removes exactly the items of the name, in order, if and only if
      neither that name nor the first survivor's comes again behind the survivor. */
  lemma CompactionFilters<T>(items: seq<T>, key: T -> string, k: nat)
    requires k < |items| && forall i :: 0 <= i < k ==> key(items[i]) != key(items[k])
    ensures Compacted(items, key, k) == Others(items, key, key(items[k])) <==> ReadsTheSameName(items, key, k)
  {
    hide Others, NextOther, NoMore, Behind;
    var name, j := key(items[k]), NextOther(items, key, key(items[k]), k);
    FilteredParts(items, key, k, j);
    if j < |items| {
      RestAgrees(items, key, k, j, name, key(items[j]));
    }
  }

  lemma DropsTheMiddle<T>(a: seq<T>, m: seq<T>, b: seq<T>, key: T -> string, name: string)
    requires (forall i :: 0 <= i < |a| ==> key(a[i]) != name) && forall i :: 0 <= i < |m| ==> key(m[i]) == name
    ensures Others(a + m + b, key, name) == a + Others(b, key, name)
  {
    hide Others;
    OthersAppend(a + m, b, key, name);
    OthersAppend(a, m, key, name);
    OthersAll(a, key, name);
    OthersNone(m, key, name);
    assert a + [] == a;
  }

  /** The filter, part by part. */
  lemma FilteredParts<T>(items: seq<T>, key: T -> string, k: nat, j: nat)
    requires k < j <= |items| && (forall i :: 0 <= i < k ==> key(items[i]) != key(items[k]))
    requires (forall i :: k <= i < j ==> key(items[i]) == key(items[k])) && (j < |items| ==> key(items[j]) != key(items[k]))
    ensures Others(items, key, key(items[k])) ==
            if j == |items| then items[..k] else Behind(items, key, k, j, key(items[k]))
  {
    hide Others;
    var name := key(items[k]);
    assert items == items[..k] + items[k..j] + items[j..];
    DropsTheMiddle(items[..k], items[k..j], items[j..], key, name);
    if j == |items| {
      OthersAll(items[j..], key, name);
    } else {
      assert items[j..] == [items[j]] + items[j + 1..];
      OthersAppend([items[j]], items[j + 1..], key, name);
      OthersAll([items[j]], key, name);
      assert items[..k] + ([items[j]] + Others(items[j + 1..], key, name)) == Behind(items, key, k, j, name);
    }
  }

  lemma RestAgrees<T>(items: seq<T>, key: T -> string, k: nat, j: nat, a: string, b: string)
    requires k < j < |items| && a != b
    ensures Behind(items, key, k, j, b) == Behind(items, key, k, j, a) <==> NoMore(items[j + 1..], key, a, b)
  {
    hide Others;
    var rest := items[j + 1..];
    OthersAll(rest, key, a);
    OthersAll(rest, key, b);
    var x, y := Behind(items, key, k, j, b), Behind(items, key, k, j, a);
    assert x[k + 1..] == Others(rest, key, b) && y[k + 1..] == Others(rest, key, a);
    if x == y {
      FiltersAgree(rest, key, a, b);
    }
  }

  /** With unique names, as validation guarantees, the loop is the filter. */
  lemma UniqueNamesSuffice<T>(items: seq<T>, key: T -> string, k: nat)
    requires k < |items| && DistinctBy(items, key)
    ensures Compacted(items, key, k) == Others(items, key, key(items[k]))
  {
    hide Others, Compacted;
    CompactionFilters(items, key, k);
  }

  /** `Others` is the filter the operations are specified with. */
  lemma {:induction false} OthersIsWithout<T(!new)>(items: seq<T>, key: T -> string, name: string)
    ensures Others(items, key, name) == Without(items, key, [name])
  {
    if items != [] {
      assert items == [items[0]] + items[1..];
      OthersAppend([items[0]], items[1..], key, name);
      OthersIsWithout(items[1..], key, name);
      assert Others([items[0]], key, name) == if key(items[0]) == name then [] else [items[0]] by {
        assert [items[0]][..0] == [];
      }
    }
  }

  // ---------------------------------------------------------------- the loops of the finalizations

  /** The loop that reads the removed name through a pointer to the item, on a list with unique names. */
  method RemoveItem<T(!new)>(items: seq<T>, key: T -> string, k: nat) returns (r: seq<T>)
    requires k < |items| && DistinctBy(items, key)
    ensures r == Without(items, key, [key(items[k])])
  {
    hide Compacted;
    var slots := new T[|items|](i requires 0 <= i < |items| => items[i]);
    assert slots[..] == items;
    var kept := CompactInPlace(slots, key, k);
    UniqueNamesSuffice(items, key, k);
    OthersIsWithout(items, key, key(items[k]));
    r := slots[..kept];
  }

  /** The loop that overwrites the slots with the items of other names. */
  method RemoveNames<T(!new)>(items: seq<T>, key: T -> string, names: seq<string>) returns (r: seq<T>)
    ensures r == Without(items, key, names)
  {
    hide Without;
    var slots := new T[|items|](i requires 0 <= i < |items| => items[i]);
    assert slots[..] == items;
    var kept, i := 0, 0;
    WithoutOfNone(items, key, names);
    while i < slots.Length
      invariant 0 <= kept <= i <= slots.Length == |items| && slots[i..] == items[i..] && slots[..kept] == Without(items[..i], key, names)
    {
      var candidate := slots[i];
      assert candidate == items[i] && items[..i + 1] == items[..i] + [items[i]];
      WithoutSnoc(items[..i], items[i], key, names);
      if key(candidate) !in names {
        slots[kept] := candidate;
        kept := kept + 1;
      }
      i := i + 1;
    }
    assert items[..i] == items;
    r := slots[..kept];
  }

  lemma WithoutOfNone<T(!new)>(items: seq<T>, key: T -> string, names: seq<string>)
    ensures Without(items[..0], key, names) == []
  {
  }

  lemma {:induction false} WithoutSnoc<T(!new)>(items: seq<T>, last: T, key: T -> string, names: seq<string>)
    ensures Without(items + [last], key, names) == Without(items, key, names) + if key(last) in names then [] else [last]
    decreases |items|
  {
    if items == [] {
      assert [] + [last] == [last] && [last][1..] == [];
    } else {
      assert (items + [last])[1..] == items[1..] + [last];
      WithoutSnoc(items[1..], last, key, names);
    }
  }
}
