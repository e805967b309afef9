/** The sliding-window limiter in front of every state-changing portal request. */
module PortalWrites {

  const LIMIT := 10
  const MINUTE := 60_000_000_000  // nanoseconds

  predicate Ascending(h: seq<int>) {
    forall i, j :: 0 <= i < j < |h| ==> h[i] <= h[j]
  }

  /** How many entries are strictly later than a minute before `now`. */
  function Recent(h: seq<int>, now: int): (n: nat)
    ensures n <= |h|
  {
    if h == [] then 0
    else (if h[0] > now - MINUTE then 1 else 0) + Recent(h[1..], now)
  }

  function Kept(h: seq<int>, cutoff: int): (r: seq<int>)
    ensures |r| <= |h|
  {
    if h == [] then []
    else Kept(h[..|h| - 1], cutoff) + (if h[|h| - 1] > cutoff then [h[|h| - 1]] else [])
  }

  /** Eleven consecutive accepted writes always span at least a minute. */
  predicate Spaced(h: seq<int>) {
    forall i :: 0 <= i < |h| - LIMIT ==> h[i] + MINUTE <= h[i + LIMIT]
  }

  class WriteLimiter {
    const writeTimes: array<int>  // backing array of the slice of accepted times
    var count: nat                // its length

    ghost var accepted: seq<int>  // every write ever accepted
    ghost var clock: int          // the latest clock reading

    ghost function Stored(): seq<int>
      reads this, writeTimes
      requires count <= writeTimes.Length
    {
      writeTimes[..count]
    }

    ghost predicate Valid()
      reads this, writeTimes
    {
      && writeTimes.Length == LIMIT
      && count <= LIMIT && count <= |accepted|
      && Ascending(accepted) && Spaced(accepted)
      && (accepted != [] ==> accepted[|accepted| - 1] <= clock)
      && Stored() == accepted[|accepted| - count..]
      && (forall i :: 0 <= i < |accepted| - count ==> accepted[i] <= clock - MINUTE)
    }

    constructor (now: int)
      ensures Valid() && fresh(writeTimes) && accepted == [] && clock == now
    {
      writeTimes := new int[LIMIT];
      count, accepted, clock := 0, [], now;
    }

    /** Overwrites the slice with its recent part, reading ahead of the writes. */
    method Prune(cutoff: int)
      requires writeTimes.Length == LIMIT && count <= LIMIT
      modifies this`count, writeTimes
      ensures count <= LIMIT && Stored() == Kept(old(Stored()), cutoff)
    {
      hide Kept;
      ghost var before := Stored();
      var kept, i := 0, 0;
      KeptStep(before);
      while i < count
        invariant 0 <= kept <= i <= count == |before|
        invariant writeTimes[..kept] == Kept(before[..i], cutoff)
        invariant forall j :: i <= j < count ==> writeTimes[j] == before[j]
      {
        assert before[..i + 1] == before[..i] + [before[i]];
        KeptSnoc(before[..i], before[i], cutoff);
        if writeTimes[i] > cutoff {
          writeTimes[kept] := writeTimes[i];
          kept := kept + 1;
        }
        i := i + 1;
      }
      assert before[..i] == before;
      count := kept;
    }

    /** Prunes, then accepts unless the window is full. */
    method AllowWrite(checked: int, appended: int) returns (allowed: bool)
      requires Valid() && clock <= checked <= appended
      modifies this, writeTimes
      ensures Valid() && clock == appended
      ensures allowed <==> Recent(old(accepted), checked) < LIMIT
      ensures accepted == if allowed then old(accepted) + [appended] else old(accepted)
      ensures count == Recent(old(accepted), checked) + if allowed then 1 else 0
    {
      hide Valid;
      PruneFor(checked, appended);
      if count >= LIMIT {
        return false;
      }
      Append(checked, appended);
      return true;
    }

    /** What is left of the slice is the recent part of the history. */
    method PruneFor(checked: int, appended: int)
      requires Valid() && clock <= checked <= appended
      modifies this`count, this`clock, writeTimes
      ensures Valid() && clock == appended && count == Recent(accepted, checked)
    {
      hide Kept, Recent, Spaced, Ascending;
      PruneAgrees(accepted, |accepted| - count, checked - MINUTE);
      Prune(checked - MINUTE);
      clock := appended;
    }

    method Append(checked: int, appended: int)
      requires Valid() && clock == appended && checked <= appended && count == Recent(accepted, checked) < LIMIT
      modifies this`count, this`accepted, writeTimes
      ensures Valid() && accepted == old(accepted) + [appended] && count == old(count) + 1
    {
      hide Recent, Spaced, Ascending;
      AcceptOneMore(accepted, checked, appended);
      writeTimes[count] := appended;
      count := count + 1;
      accepted := accepted + [appended];
    }
  }

  lemma HistoryIsSpaced(limiter: WriteLimiter)
    requires limiter.Valid()
    ensures Ascending(limiter.accepted) && Spaced(limiter.accepted)
  {
  }

  lemma KeptStep(h: seq<int>)
    ensures forall c :: Kept([], c) == []
    ensures h[..0] == []
  {
  }

  lemma KeptSnoc(h: seq<int>, x: int, cutoff: int)
    ensures Kept(h + [x], cutoff) == Kept(h, cutoff) + (if x > cutoff then [x] else [])
  {
    assert (h + [x])[..|h|] == h;
  }

  /** Accepting below the limit keeps any eleven writes a minute apart. */
  lemma AcceptOneMore(h: seq<int>, checked: int, appended: int)
    requires Ascending(h) && Spaced(h) && checked <= appended
    requires h != [] ==> h[|h| - 1] <= appended
    requires Recent(h, checked) < LIMIT
    ensures Ascending(h + [appended]) && Spaced(h + [appended])
  {
    RecentIsSuffix(h, checked - MINUTE);
  }

  /** Pruning the stored suffix keeps exactly the recent part of the history. */
  lemma PruneAgrees(h: seq<int>, k: nat, cutoff: int)
    requires k <= |h| && Ascending(h) && forall i :: 0 <= i < k ==> h[i] <= cutoff
    ensures var n := Recent(h, cutoff + MINUTE);
            && Kept(h[k..], cutoff) == h[|h| - n..] && n <= |h| - k
            && forall i :: 0 <= i < |h| - n ==> h[i] <= cutoff
  {
    RecentIsSuffix(h, cutoff);
    var n := Recent(h, cutoff + MINUTE);
    var s := h[k..];
    KeptOfAscending(s, cutoff);
    var m := |s| - |Kept(s, cutoff)|;
    forall i | 0 <= i < k + m ensures h[i] <= cutoff { if i >= k { assert s[i - k] == h[i]; } }
    forall i | k + m <= i < |h| ensures h[i] > cutoff { assert s[i - k] == h[i]; }
    SameBoundary(h, cutoff, |h| - n, k + m);
  }

  lemma SameBoundary(h: seq<int>, cutoff: int, p: nat, q: nat)
    requires p <= |h| && q <= |h|
    requires forall i :: 0 <= i < p || 0 <= i < q ==> h[i] <= cutoff
    requires forall i :: p <= i < |h| || q <= i < |h| ==> h[i] > cutoff
    ensures p == q
  {
    assert p < |h| ==> h[p] > cutoff;
    assert q < |h| ==> h[q] > cutoff;
  }

  lemma {:induction false} RecentIsSuffix(h: seq<int>, cutoff: int)
    requires Ascending(h)
    ensures var n := Recent(h, cutoff + MINUTE);
            && (forall i :: 0 <= i < |h| - n ==> h[i] <= cutoff)
            && (forall i :: |h| - n <= i < |h| ==> h[i] > cutoff)
  {
    if h != [] {
      RecentIsSuffix(h[1..], cutoff);
      var n := Recent(h[1..], cutoff + MINUTE);
      forall i | 0 < i < |h| ensures h[i] == h[1..][i - 1] {}
      assert n < |h| - 1 ==> h[0] <= h[1..][0] <= cutoff;
    }
  }

  lemma {:induction false} KeptOfAscending(h: seq<int>, cutoff: int)
    requires Ascending(h)
    ensures var m := |h| - |Kept(h, cutoff)|;
            && 0 <= m <= |h| && Kept(h, cutoff) == h[m..]
            && (forall i :: 0 <= i < m ==> h[i] <= cutoff)
            && (forall i :: m <= i < |h| ==> h[i] > cutoff)
  {
    if h != [] {
      var front := h[..|h| - 1];
      KeptOfAscending(front, cutoff);
      var m := |front| - |Kept(front, cutoff)|;
      if h[|h| - 1] <= cutoff {
        SameBoundary(front, cutoff, m, |front|);
      } else {
        assert front[m..] + [h[|h| - 1]] == h[m..];
      }
    }
  }

  // ---------------------------------------------------------------- main result

  ghost predicate MinuteHolds(h: seq<int>, start: int) {
    |set i | 0 <= i < |h| && start <= h[i] < start + 60_000_000_000| <= 10
  }

  /** No half-open minute, wherever it starts, contains more than ten accepted writes. */
  lemma AtMostTenAMinute(h: seq<int>, start: int)
    requires Ascending(h) && Spaced(h)
    ensures MinuteHolds(h, start)
  {
    var inside := set i | 0 <= i < |h| && start <= h[i] < start + 60_000_000_000;
    var a := 0;
    while a < |h| && h[a] < start
      invariant 0 <= a <= |h| && forall i :: 0 <= i < a ==> h[i] < start
    {
      a := a + 1;
    }
    assert a + LIMIT < |h| ==> h[a] + MINUTE <= h[a + LIMIT];
    assert forall i <- inside :: a <= i < a + 10;
    Within(inside, a, 10);
  }

  lemma {:induction false} Within(s: set<int>, from: int, n: nat)
    requires forall i <- s :: from <= i < from + n
    ensures |s| <= n
    decreases n
  {
    if n > 0 {
      var rest := s - {from + n - 1};
      Within(rest, from, n - 1);
      assert s <= rest + {from + n - 1};
    } else {
      assert forall i :: i !in s;
    }
  }

  /** Writes accepted by verdicts over successive pairs of clock readings. */
  function AcceptedTimes(readings: seq<(int, int)>, verdicts: seq<bool>): seq<int>
    requires |readings| == |verdicts|
  {
    if readings == [] then []
    else
      var n := |readings| - 1;
      AcceptedTimes(readings[..n], verdicts[..n]) + (if verdicts[n] then [readings[n].1] else [])
  }

  /** The accepted writes less than a minute old. */
  ghost function Late(readings: seq<(int, int)>, verdicts: seq<bool>, now: int): set<int>
    requires |readings| == |verdicts|
  {
    set j | 0 <= j < |readings| && verdicts[j] && readings[j].1 > now - 60_000_000_000
  }

  /** A request is accepted exactly when fewer than ten of the accepted ones before it are less than a minute old. */
  ghost predicate CountedVerdicts(readings: seq<(int, int)>, verdicts: seq<bool>) {
    |readings| == |verdicts| && forall i :: 0 <= i < |verdicts| ==> (verdicts[i] <==> |Late(readings[..i], verdicts[..i], readings[i].0)| < 10)
  }

  lemma {:induction false} RecentSnoc(h: seq<int>, x: int, now: int)
    ensures Recent(h + [x], now) == Recent(h, now) + if x > now - 60_000_000_000 then 1 else 0
  {
    if h != [] {
      RecentSnoc(h[1..], x, now);
      assert (h + [x])[1..] == h[1..] + [x];
    }
  }

  lemma {:induction false} RecentCounts(readings: seq<(int, int)>, verdicts: seq<bool>, now: int)
    requires |readings| == |verdicts|
    ensures Recent(AcceptedTimes(readings, verdicts), now) == |Late(readings, verdicts, now)|
    decreases |readings|
  {
    hide Recent, Late;
    if readings == [] {
      NothingLate(now);
    } else {
      var n := |readings| - 1;
      RecentCounts(readings[..n], verdicts[..n], now);
      LateSnoc(readings, verdicts, now);
      if verdicts[n] {
        RecentSnoc(AcceptedTimes(readings[..n], verdicts[..n]), readings[n].1, now);
      } else {
        assert AcceptedTimes(readings, verdicts) == AcceptedTimes(readings[..n], verdicts[..n]);
      }
    }
  }

  lemma NothingLate(now: int)
    ensures Recent(AcceptedTimes([], []), now) == |Late([], [], now)|
  {
    assert Late([], [], now) == {};
  }

  lemma LateSnoc(readings: seq<(int, int)>, verdicts: seq<bool>, now: int)
    requires |readings| == |verdicts| > 0
    ensures var n := |readings| - 1;
            |Late(readings, verdicts, now)|
            == |Late(readings[..n], verdicts[..n], now)| + if verdicts[n] && readings[n].1 > now - 60_000_000_000 then 1 else 0
  {
    var n := |readings| - 1;
    var before := Late(readings[..n], verdicts[..n], now);
    assert Late(readings, verdicts, now) == before + if verdicts[n] && readings[n].1 > now - 60_000_000_000 then {n} else {};
  }

  lemma CountedSnoc(readings: seq<(int, int)>, verdicts: seq<bool>, reading: (int, int), verdict: bool)
    requires CountedVerdicts(readings, verdicts)
    requires verdict <==> Recent(AcceptedTimes(readings, verdicts), reading.0) < LIMIT
    ensures CountedVerdicts(readings + [reading], verdicts + [verdict])
  {
    hide AcceptedTimes, Recent, Late;
    var rs, vs := readings + [reading], verdicts + [verdict];
    RecentCounts(readings, verdicts, reading.0);
    forall i | 0 <= i < |vs| ensures vs[i] <==> |Late(rs[..i], vs[..i], rs[i].0)| < 10 {
      if i < |verdicts| {
        assert rs[..i] == readings[..i] && vs[..i] == verdicts[..i];
      } else {
        assert rs[..i] == readings && vs[..i] == verdicts;
      }
    }
  }

  /** Over any sequence of requests with a non-decreasing clock. */
  method Serve(start: int, readings: seq<(int, int)>) returns (verdicts: seq<bool>, accepted: seq<int>)
    requires forall i :: 0 <= i < |readings| ==> start <= readings[i].0 <= readings[i].1
    requires forall i, j :: 0 <= i < j < |readings| ==> readings[i].1 <= readings[j].0
    ensures CountedVerdicts(readings, verdicts)
    ensures accepted == AcceptedTimes(readings, verdicts) && Ascending(accepted)
    ensures forall t :: MinuteHolds(accepted, t)
  {
    hide Recent, AcceptedTimes, CountedVerdicts, MinuteHolds, WriteLimiter.Valid;
    var limiter := new WriteLimiter(start);
    verdicts, accepted := [], [];
    NoReadings();
    var i := 0;
    while i < |readings|
      invariant 0 <= i <= |readings| && |verdicts| == i
      invariant fresh(limiter) && fresh(limiter.writeTimes) && limiter.Valid()
      invariant limiter.clock == if i == 0 then start else readings[i - 1].1
      invariant limiter.accepted == accepted == AcceptedTimes(readings[..i], verdicts)
      invariant CountedVerdicts(readings[..i], verdicts)
    {
      var allowed := limiter.AllowWrite(readings[i].0, readings[i].1);
      CountedSnoc(readings[..i], verdicts, readings[i], allowed);
      AcceptedSnoc(readings[..i], verdicts, readings[i], allowed);
      assert readings[..i + 1] == readings[..i] + [readings[i]];
      verdicts := verdicts + [allowed];
      if allowed { accepted := accepted + [readings[i].1]; }
      i := i + 1;
    }
    assert readings[..i] == readings;
    HistoryIsSpaced(limiter);
    forall t ensures MinuteHolds(accepted, t) { AtMostTenAMinute(accepted, t); }
  }

  lemma NoReadings()
    ensures AcceptedTimes([], []) == [] && CountedVerdicts([], [])
  {
  }

  lemma AcceptedSnoc(readings: seq<(int, int)>, verdicts: seq<bool>, reading: (int, int), verdict: bool)
    requires |readings| == |verdicts|
    ensures AcceptedTimes(readings + [reading], verdicts + [verdict])
         == AcceptedTimes(readings, verdicts) + (if verdict then [reading.1] else [])
  {
    var rs, vs := readings + [reading], verdicts + [verdict];
    assert rs[..|readings|] == readings && vs[..|verdicts|] == verdicts;
  }
}
