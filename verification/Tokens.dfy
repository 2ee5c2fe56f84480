/** Token counting and per-token fees (x/settlement/keeper/keeper.go:2944-3060).
    Counts are uint32 and fees uint64; wrap-around is written out. */
module Tokens {
  import opened Sums

  const TWO_32: nat := 0x1_0000_0000
  const TWO_64: nat := 0x1_0000_0000_0000_0000
  type uint32 = x: nat | x < 0x1_0000_0000
  type uint64 = x: nat | x < 0x1_0000_0000_0000_0000

  // ---------- Sorting and the median ----------

  ghost predicate Sorted(s: seq<uint32>) {
    forall i, j :: 0 <= i < j < |s| ==> s[i] <= s[j]
  }

  function Insert(x: uint32, s: seq<uint32>): seq<uint32> {
    if s == [] || x <= s[0] then [x] + s else [s[0]] + Insert(x, s[1..])
  }

  function Sort(s: seq<uint32>): seq<uint32> {
    if s == [] then [] else Insert(s[0], Sort(s[1..]))
  }

  lemma {:induction false} InsertMultiset(x: uint32, s: seq<uint32>)
    ensures multiset(Insert(x, s)) == multiset(s) + multiset{x}
  {
    if s != [] && x > s[0] {
      InsertMultiset(x, s[1..]);
      assert s == [s[0]] + s[1..];
    }
  }

  ghost predicate AllAtLeast(s: seq<uint32>, y: uint32) {
    forall i :: 0 <= i < |s| ==> y <= s[i]
  }

  lemma {:induction false} InsertAbove(y: uint32, x: uint32, s: seq<uint32>)
    requires y <= x && AllAtLeast(s, y)
    ensures AllAtLeast(Insert(x, s), y)
  {
    if s != [] && x > s[0] { InsertAbove(y, x, s[1..]); }
  }

  lemma SortedCons(x: uint32, s: seq<uint32>)
    requires Sorted(s) && AllAtLeast(s, x)
    ensures Sorted([x] + s)
  {
  }

  lemma {:induction false} InsertSorted(x: uint32, s: seq<uint32>)
    requires Sorted(s)
    ensures Sorted(Insert(x, s))
  {
    if s != [] && x > s[0] {
      InsertSorted(x, s[1..]);
      InsertAbove(s[0], x, s[1..]);
      SortedCons(s[0], Insert(x, s[1..]));
    }
  }

  lemma {:induction false} SortSorts(s: seq<uint32>)
    ensures Sorted(Sort(s)) && multiset(Sort(s)) == multiset(s) && |Sort(s)| == |s|
  {
    if s != [] {
      SortSorts(s[1..]);
      InsertSorted(s[0], Sort(s[1..]));
      InsertMultiset(s[0], Sort(s[1..]));
      assert s == [s[0]] + s[1..];
      assert |multiset(Sort(s))| == |multiset(s)|;
    }
  }

  /** The head of a sorted list is a lower bound of its values. */
  lemma HeadIsLeast(s: seq<uint32>, x: uint32)
    requires Sorted(s) && x in multiset(s)
    ensures s != [] && s[0] <= x
  {
    var i :| 0 <= i < |s| && s[i] == x;
  }

  lemma SortedTail(s: seq<uint32>)
    requires Sorted(s) && s != []
    ensures Sorted(s[1..]) && multiset(s[1..]) == multiset(s) - multiset{s[0]}
  {
    assert s == [s[0]] + s[1..];
  }

  lemma SameHead(a: seq<uint32>, b: seq<uint32>)
    requires Sorted(a) && Sorted(b) && multiset(a) == multiset(b) && a != []
    ensures b != [] && a[0] == b[0]
  {
    assert a[0] in multiset(a);
    HeadIsLeast(b, a[0]);
    assert b[0] in multiset(b);
    HeadIsLeast(a, b[0]);
  }

  lemma SameTails(a: seq<uint32>, b: seq<uint32>)
    requires Sorted(a) && Sorted(b) && multiset(a) == multiset(b) && a != [] && b != [] && a[0] == b[0]
    ensures Sorted(a[1..]) && Sorted(b[1..]) && multiset(a[1..]) == multiset(b[1..])
  {
    SortedTail(a);
    SortedTail(b);
  }

  /** A sorted arrangement of given values is unique. */
  lemma {:induction false} SortedUnique(a: seq<uint32>, b: seq<uint32>)
    requires Sorted(a) && Sorted(b) && multiset(a) == multiset(b)
    ensures a == b
  {
    assert |a| == |multiset(a)| == |multiset(b)| == |b|;
    if a != [] {
      SameHead(a, b);
      SameTails(a, b);
      SortedUnique(a[1..], b[1..]);
      assert a == [a[0]] + a[1..] && b == [b[0]] + b[1..];
    }
  }

  /** The average of two counts, with the sum wrapping at 32 bits. */
  function Average(a: uint32, b: uint32): uint32 {
    (a + b) % TWO_32 / 2
  }

  /** The median of a list: zero when empty, the wrapped average of two, otherwise the upper middle. */
  function Median(vals: seq<uint32>): uint32
  {
    if vals == [] then 0 else
      SortSorts(vals);
      var s := Sort(vals);
      if |vals| == 2 then Average(s[0], s[1]) else s[|s| / 2]
  }

  method Swap(vals: array<uint32>, i: nat, j: nat)
    requires i < j < vals.Length
    modifies vals
    ensures vals[i] == old(vals[j]) && vals[j] == old(vals[i])
    ensures forall k :: 0 <= k < vals.Length && k != i && k != j ==> vals[k] == old(vals[k])
    ensures multiset(vals[..]) == old(multiset(vals[..]))
  {
    vals[i], vals[j] := vals[j], vals[i];
  }

  /** The first `i` values are final: in order and below everything after them. */
  ghost predicate Placed(s: seq<uint32>, i: nat) {
    forall k, m :: 0 <= k < i && k < m < |s| ==> s[k] <= s[m]
  }

  /** One pass of the inner loop: the least value of vals[i..] moves to position i. */
  method SelectMinimum(vals: array<uint32>, i: nat)
    requires i < vals.Length && Placed(vals[..], i)
    modifies vals
    ensures Placed(vals[..], i + 1) && multiset(vals[..]) == old(multiset(vals[..]))
  {
    var j := i + 1;
    while j < vals.Length
      invariant i < j <= vals.Length
      invariant multiset(vals[..]) == old(multiset(vals[..]))
      invariant Placed(vals[..], i)
      invariant forall m :: i < m < j ==> vals[i] <= vals[m]
    {
      if vals[j] < vals[i] {
        Swap(vals, i, j);
      }
      j := j + 1;
    }
  }

  /** The exchange sort of medianUint32, in place. */
  method ExchangeSort(vals: array<uint32>)
    modifies vals
    ensures vals[..] == Sort(old(vals[..]))
  {
    var i := 0;
    while i < vals.Length
      invariant 0 <= i <= vals.Length
      invariant multiset(vals[..]) == old(multiset(vals[..]))
      invariant Placed(vals[..], i)
    {
      SelectMinimum(vals, i);
      i := i + 1;
    }
    SortSorts(old(vals[..]));
    assert Sorted(vals[..]);
    SortedUnique(vals[..], Sort(old(vals[..])));
  }

  method MedianUint32(vals: array<uint32>) returns (median: uint32)
    modifies vals
    ensures median == Median(old(vals[..]))
    ensures Sorted(vals[..]) && multiset(vals[..]) == old(multiset(vals[..]))
  {
    if vals.Length == 0 { return 0; }
    ghost var before := vals[..];
    SortSorts(before);
    ExchangeSort(vals);
    assert vals[..] == Sort(before);
    if vals.Length == 2 {
      return Average(vals[0], vals[1]);
    }
    return vals[vals.Length / 2];
  }

  // ---------- Robustness of the median ----------

  /** How many values lie in [lo, hi]. */
  ghost function CountIn(s: seq<uint32>, lo: int, hi: int): nat {
    if s == [] then 0 else (if lo <= s[0] <= hi then 1 else 0) + CountIn(s[1..], lo, hi)
  }

  lemma {:induction false} CountInInsert(x: uint32, s: seq<uint32>, lo: int, hi: int)
    ensures CountIn(Insert(x, s), lo, hi) == CountIn(s, lo, hi) + if lo <= x <= hi then 1 else 0
  {
    if s == [] || x <= s[0] {
      assert ([x] + s)[1..] == s;
    } else {
      CountInInsert(x, s[1..], lo, hi);
      assert ([s[0]] + Insert(x, s[1..]))[1..] == Insert(x, s[1..]);
    }
  }

  lemma {:induction false} CountInSort(s: seq<uint32>, lo: int, hi: int)
    ensures CountIn(Sort(s), lo, hi) == CountIn(s, lo, hi)
  {
    if s != [] {
      CountInSort(s[1..], lo, hi);
      CountInInsert(s[0], Sort(s[1..]), lo, hi);
    }
  }

  lemma {:induction false} CountInSplit(a: seq<uint32>, b: seq<uint32>, lo: int, hi: int)
    ensures CountIn(a + b, lo, hi) == CountIn(a, lo, hi) + CountIn(b, lo, hi)
    ensures CountIn(a, lo, hi) <= |a|
  {
    if a == [] {
      assert a + b == b;
    } else {
      assert (a + b)[1..] == a[1..] + b;
      CountInSplit(a[1..], b, lo, hi);
    }
  }

  /** No value of the list lies in [lo, hi]. */
  ghost predicate Misses(s: seq<uint32>, lo: int, hi: int) {
    forall i :: 0 <= i < |s| ==> !(lo <= s[i] <= hi)
  }

  lemma {:induction false} CountInNone(s: seq<uint32>, lo: int, hi: int)
    requires Misses(s, lo, hi)
    ensures CountIn(s, lo, hi) == 0
  {
    if s != [] { CountInNone(s[1..], lo, hi); }
  }

  /** In a sorted list, a strict majority in [lo, hi] forces the middle element into it. */
  lemma MajorityMiddle(s: seq<uint32>, m: nat, lo: int, hi: int)
    requires Sorted(s) && 2 * CountIn(s, lo, hi) > |s| && 2 * m <= |s| < 2 * m + 2
    ensures m < |s| && lo <= s[m] <= hi
  {
    CountInSplit(s, [], lo, hi);
    if s[m] > hi { MiddleAbove(s, m, lo, hi); }
    if s[m] < lo { MiddleBelow(s, m, lo, hi); }
  }

  /** If the middle is above the interval, only what is before it can be inside. */
  lemma MiddleAbove(s: seq<uint32>, m: nat, lo: int, hi: int)
    requires Sorted(s) && m < |s| && s[m] > hi
    ensures CountIn(s, lo, hi) <= m
  {
    assert s == s[..m] + s[m..];
    CountInSplit(s[..m], s[m..], lo, hi);
    assert Misses(s[m..], lo, hi);
    CountInNone(s[m..], lo, hi);
  }

  /** If it is below, only what is after it. */
  lemma MiddleBelow(s: seq<uint32>, m: nat, lo: int, hi: int)
    requires Sorted(s) && m < |s| && s[m] < lo
    ensures CountIn(s, lo, hi) <= |s| - m - 1
  {
    assert s == s[..m + 1] + s[m + 1..];
    CountInSplit(s[..m + 1], s[m + 1..], lo, hi);
    assert Misses(s[..m + 1], lo, hi);
    CountInNone(s[..m + 1], lo, hi);
    CountInSplit(s[m + 1..], [], lo, hi);
  }

  lemma SortTwo(vals: seq<uint32>)
    requires |vals| == 2
    ensures Sort(vals) == vals || Sort(vals) == [vals[1], vals[0]]
  {
    assert vals[1..] == [vals[1]] && vals[1..][1..] == [];
    assert Sort(vals[1..]) == Insert(vals[1], Sort([])) == [vals[1]];
    assert vals == [vals[0], vals[1]];
    assert Insert(vals[0], []) == [vals[0]];
  }

  lemma CountTwo(s: seq<uint32>, lo: int, hi: int)
    requires |s| == 2 && CountIn(s, lo, hi) == 2
    ensures lo <= s[0] <= hi && lo <= s[1] <= hi
  {
    assert CountIn(s[1..], lo, hi) == (if lo <= s[1] <= hi then 1 else 0) + CountIn(s[1..][1..], lo, hi);
  }

  lemma AverageBetween(a: uint32, b: uint32, lo: nat, hi: nat)
    requires lo <= a <= hi && lo <= b <= hi && a + b < TWO_32
    ensures lo <= Average(a, b) <= hi
    ensures lo <= Average(b, a) <= hi
  {
  }

  lemma MedianOfTwo(vals: seq<uint32>, lo: nat, hi: nat)
    requires |vals| == 2 && CountIn(vals, lo, hi) == 2 && vals[0] + vals[1] < TWO_32
    ensures lo <= Median(vals) <= hi
  {
    SortTwo(vals);
    CountTwo(vals, lo, hi);
    AverageBetween(vals[0], vals[1], lo, hi);
  }

  /** A strict majority of reports in [lo, hi] puts the median in [lo, hi]. */
  lemma MedianRobust(vals: seq<uint32>, lo: nat, hi: nat)
    requires 2 * CountIn(vals, lo, hi) > |vals|
    requires |vals| == 2 ==> vals[0] + vals[1] < TWO_32
    ensures lo <= Median(vals) <= hi
  {
    if |vals| == 2 {
      CountInSplit(vals, [], lo, hi);
      MedianOfTwo(vals, lo, hi);
    } else {
      SortSorts(vals);
      CountInSort(vals, lo, hi);
      MajorityMiddle(Sort(vals), |vals| / 2, lo, hi);
    }
  }

  lemma {:induction false} CountInAll(s: seq<uint32>, lo: int, hi: int)
    requires forall i :: 0 <= i < |s| ==> lo <= s[i] <= hi
    ensures CountIn(s, lo, hi) == |s|
  {
    if s != [] { CountInAll(s[1..], lo, hi); }
  }

  lemma RankAt(s: seq<uint32>, k: nat)
    requires Sorted(s) && k < |s|
    ensures CountIn(s, 0, s[k]) > k && CountIn(s, s[k], TWO_32) >= |s| - k
  {
    assert s == s[..k + 1] + s[k + 1..] == s[..k] + s[k..];
    CountInSplit(s[..k + 1], s[k + 1..], 0, s[k]);
    CountInAll(s[..k + 1], 0, s[k]);
    CountInSplit(s[..k], s[k..], s[k], TWO_32);
    CountInAll(s[k..], s[k], TWO_32);
  }

  lemma MedianOfMany(vals: seq<uint32>)
    requires vals != [] && |vals| != 2
    ensures var m := Median(vals);
            m in vals && 2 * CountIn(vals, 0, m) > |vals| && 2 * CountIn(vals, m, TWO_32) >= |vals|
  {
    var s, k := Sort(vals), |vals| / 2;
    SortSorts(vals);
    RankAt(s, k);
    CountInSort(vals, 0, s[k]);
    CountInSort(vals, s[k], TWO_32);
    assert s[k] in multiset(s);
  }

  lemma MedianOfPair(vals: seq<uint32>)
    requires |vals| == 2 && vals[0] + vals[1] < TWO_32
    ensures Median(vals) == (vals[0] + vals[1]) / 2
  {
    SortTwo(vals);
  }

  /** The median is one of the values, with more than half of them up to it and at least half of them from it
      on; of two values it is their mean. */
  lemma MedianRank(vals: seq<uint32>)
    requires vals != []
    ensures |vals| != 2 ==> var m := Median(vals);
              m in vals && 2 * CountIn(vals, 0, m) > |vals| && 2 * CountIn(vals, m, TWO_32) >= |vals|
    ensures |vals| == 2 && vals[0] + vals[1] < TWO_32 ==> Median(vals) == (vals[0] + vals[1]) / 2
  {
    if |vals| != 2 { MedianOfMany(vals); } else if vals[0] + vals[1] < TWO_32 { MedianOfPair(vals); }
  }

  // ---------- Resolving worker and verifier counts ----------

  function Wrap32(x: nat): (r: uint32)
    ensures x < TWO_32 ==> r == x
  {
    x % TWO_32
  }

  function EffectiveTolerance(count: uint32, absTol: uint32, pct: uint32): (tol: uint32)
    ensures tol >= absTol
    ensures count * pct < TWO_32 ==> tol as int == if count * pct / 100 > absTol then count * pct / 100 else absTol
  {
    var pctTol := Wrap32(count * pct) / 100;
    if pctTol > absTol then pctTol else absTol
  }

  function ResolveTokenPair(worker: uint32, median: uint32, tolerance: uint32): (r: (uint32, bool))
    ensures median != 0 ==> median - tolerance <= r.0 <= median + tolerance
    ensures r.1 <==> median != 0 && !(median - tolerance <= worker <= median + tolerance)
    ensures !r.1 ==> r.0 == worker
  {
    if median == 0 then (worker, false) else
      var delta := if worker > median then worker - median else median - worker;
      if delta <= tolerance then (worker, false) else (median, true)
  }

  /** The reports a resolution counts: zero means "no report". */
  function NonZero(reports: seq<uint32>): seq<uint32> {
    if reports == [] then []
    else (if reports[0] > 0 then [reports[0]] else []) + NonZero(reports[1..])
  }

  function Resolve(worker: uint32, reports: seq<uint32>, absTol: uint32, pct: uint32): (uint32, bool) {
    var median := Median(NonZero(reports));
    ResolveTokenPair(worker, median, EffectiveTolerance(median, absTol, pct))
  }

  lemma {:induction false} NonZeroSnoc(reports: seq<uint32>, r: uint32)
    ensures NonZero(reports + [r]) == NonZero(reports) + if r > 0 then [r] else []
  {
    if reports != [] {
      assert (reports + [r])[1..] == reports[1..] + [r];
      NonZeroSnoc(reports[1..], r);
    }
  }

  /** One side (input or output tokens) of ResolveTokenCounts. */
  method ResolveTokenCounts(worker: uint32, reports: seq<uint32>, absTol: uint32, pct: uint32)
    returns (count: uint32, dishonest: bool)
    ensures (count, dishonest) == Resolve(worker, reports, absTol, pct)
  {
    var kept: seq<uint32> := [];
    for i := 0 to |reports|
      invariant kept == NonZero(reports[..i])
    {
      NonZeroSnoc(reports[..i], reports[i]);
      assert reports[..i + 1] == reports[..i] + [reports[i]];
      if reports[i] > 0 {
        kept := kept + [reports[i]];
      }
    }
    assert reports[..|reports|] == reports;
    var vals := new uint32[|kept|](i requires 0 <= i < |kept| => kept[i]);
    assert vals[..] == kept;
    var median := MedianUint32(vals);
    var pair := ResolveTokenPair(worker, median, EffectiveTolerance(median, absTol, pct));
    return pair.0, pair.1;
  }

  /** Whatever the worker claims, an honest strict majority in [lo, hi] keeps the
      resolved count within the tolerance of that interval. */
  lemma ResolvedNearMajority(worker: uint32, reports: seq<uint32>, absTol: uint32, pct: uint32, lo: nat, hi: nat)
    requires 1 <= lo
    requires var v := NonZero(reports); 2 * CountIn(v, lo, hi) > |v|
    requires var v := NonZero(reports); |v| == 2 ==> v[0] + v[1] < TWO_32
    requires hi * pct < TWO_32
    ensures var tol := if hi * pct / 100 > absTol then hi * pct / 100 else absTol;
            lo - tol <= Resolve(worker, reports, absTol, pct).0 <= hi + tol
  {
    var v := NonZero(reports);
    MedianRobust(v, lo, hi);
    var median := Median(v);
    assert median * pct <= hi * pct by { MulMonotone(median, hi, pct); }
  }

  // ---------- What a resolved count means ----------

  /** Who reports a count in [lo, hi]. */
  ghost function Within(reports: seq<uint32>, lo: nat, hi: nat): set<nat> {
    set i: nat | i < |reports| && lo <= reports[i] <= hi
  }

  /** More than half of those who report anything. */
  ghost predicate Majority(reports: seq<uint32>, lo: nat, hi: nat) {
    1 <= lo && 2 * |Within(reports, lo, hi)| > |Within(reports, 1, TWO_32)|
  }

  /** Two reports are averaged with a sum that wraps at 32 bits. */
  ghost predicate NoWrap(reports: seq<uint32>) {
    |Within(reports, 1, TWO_32)| == 2 ==>
      forall i, j :: 0 <= i < j < |reports| && reports[i] > 0 && reports[j] > 0 ==> reports[i] + reports[j] < TWO_32
  }

  /** All who report anything report `v`. */
  ghost predicate Unanimous(reports: seq<uint32>, v: uint32) {
    v > 0 && v in reports && forall i :: 0 <= i < |reports| ==> reports[i] in {0, v}
  }

  /** What a count of `n` has to do with the claim of the worker and the reports of the verifiers. Without
      reports it is the claim. It is within the tolerance of wherever most reports are. If they agree, it is the
      claim if that is within the tolerance of them, and otherwise what they say. */
  ghost predicate CountsAs(worker: uint32, reports: seq<uint32>, absTol: uint32, pct: uint32, n: uint32) {
    && ((forall i :: 0 <= i < |reports| ==> reports[i] == 0) ==> n == worker)
    && (NoWrap(reports) ==>
          && (forall lo: nat, hi: nat :: Majority(reports, lo, hi) && hi * pct < TWO_32 ==>
                var tol := if hi * pct / 100 > absTol then hi * pct / 100 else absTol;
                lo - tol <= n <= hi + tol)
          && (forall v: uint32 :: Unanimous(reports, v) ==>
                var tol := EffectiveTolerance(v, absTol, pct);
                n == if v - tol <= worker <= v + tol then worker else v))
  }

  lemma WithinSnoc(reports: seq<uint32>, r: uint32, lo: nat, hi: nat)
    ensures |Within(reports + [r], lo, hi)| == |Within(reports, lo, hi)| + if lo <= r <= hi then 1 else 0
  {
    var a, b := Within(reports, lo, hi), Within(reports + [r], lo, hi);
    assert b == a + if lo <= r <= hi then {|reports|} else {};
  }

  lemma {:induction false} WithinCounted(reports: seq<uint32>, lo: nat, hi: nat)
    requires lo >= 1
    ensures |Within(reports, lo, hi)| == CountIn(NonZero(reports), lo, hi)
    decreases |reports|
  {
    if reports != [] {
      var init, r := reports[..|reports| - 1], reports[|reports| - 1];
      assert reports == init + [r];
      WithinCounted(init, lo, hi);
      WithinSnoc(init, r, lo, hi);
      NonZeroSnoc(init, r);
      CountInSplit(NonZero(init), if r > 0 then [r] else [], lo, hi);
    }
  }

  lemma {:induction false} AllNonZero(reports: seq<uint32>)
    ensures CountIn(NonZero(reports), 1, TWO_32) == |NonZero(reports)|
    ensures (forall i :: 0 <= i < |reports| ==> reports[i] == 0) ==> NonZero(reports) == []
  {
    if reports != [] {
      AllNonZero(reports[1..]);
      CountInSplit(if reports[0] > 0 then [reports[0]] else [], NonZero(reports[1..]), 1, TWO_32);
    }
  }

  lemma {:induction false} OneNonZero(reports: seq<uint32>) returns (i: nat)
    requires |NonZero(reports)| == 1
    ensures i < |reports| && reports[i] > 0 && NonZero(reports) == [reports[i]]
  {
    if reports[0] > 0 {
      i := 0;
    } else {
      i := OneNonZero(reports[1..]);
      i := i + 1;
    }
  }

  lemma {:induction false} TwoNonZero(reports: seq<uint32>) returns (i: nat, j: nat)
    requires |NonZero(reports)| == 2
    ensures i < j < |reports| && reports[i] > 0 && reports[j] > 0 && NonZero(reports) == [reports[i], reports[j]]
  {
    if reports[0] > 0 {
      i := 0;
      j := OneNonZero(reports[1..]);
    } else {
      i, j := TwoNonZero(reports[1..]);
      i := i + 1;
    }
    j := j + 1;
  }

  lemma NoWrapPair(reports: seq<uint32>)
    requires NoWrap(reports)
    ensures var v := NonZero(reports); |v| == 2 ==> v[0] + v[1] < TWO_32
  {
    WithinCounted(reports, 1, TWO_32);
    AllNonZero(reports);
    if |NonZero(reports)| == 2 { var i, j := TwoNonZero(reports); }
  }

  lemma MajorityCounted(reports: seq<uint32>, lo: nat, hi: nat)
    requires Majority(reports, lo, hi)
    ensures var v := NonZero(reports); 2 * CountIn(v, lo, hi) > |v|
  {
    WithinCounted(reports, lo, hi);
    WithinCounted(reports, 1, TWO_32);
    AllNonZero(reports);
  }

  lemma UnanimousIsMajority(reports: seq<uint32>, v: uint32)
    requires Unanimous(reports, v)
    ensures Majority(reports, v, v)
  {
    assert Within(reports, v, v) == Within(reports, 1, TWO_32);
    var i :| 0 <= i < |reports| && reports[i] == v;
    assert i in Within(reports, v, v);
  }

  /** Resolving does just that. */
  lemma ResolvesAs(worker: uint32, reports: seq<uint32>, absTol: uint32, pct: uint32)
    ensures CountsAs(worker, reports, absTol, pct, Resolve(worker, reports, absTol, pct).0)
  {
    AllNonZero(reports);
    if NoWrap(reports) {
      NoWrapPair(reports);
      forall lo: nat, hi: nat | Majority(reports, lo, hi) && hi * pct < TWO_32
        ensures var tol := if hi * pct / 100 > absTol then hi * pct / 100 else absTol;
                lo - tol <= Resolve(worker, reports, absTol, pct).0 <= hi + tol
      {
        MajorityCounted(reports, lo, hi);
        ResolvedNearMajority(worker, reports, absTol, pct, lo, hi);
      }
      forall v: uint32 | Unanimous(reports, v) ensures Median(NonZero(reports)) == v {
        UnanimousIsMajority(reports, v);
        MajorityCounted(reports, v, v);
        MedianRobust(NonZero(reports), v, v);
      }
    }
  }

  // ---------- Per-token fee ----------

  lemma QuotientBelow(w: nat, count: nat, fee: nat)
    requires 0 < fee && w < count * fee
    ensures w / fee < count
  {
    var q := w / fee;
    assert q * fee <= w && (count - 1) * fee + fee == count * fee;
    MulStep(count - 1, q, fee);
  }

  lemma QuotientExact(count: nat, fee: nat)
    requires 0 < fee
    ensures count * fee / fee == count
  {
    QuotientIsUnique(count * fee, fee, count);
  }

  /** 64-bit multiplication followed by the division test detects overflow exactly. */
  lemma OverflowTest(count: nat, fee: nat)
    requires 0 < fee
    ensures count * fee % TWO_64 / fee == count <==> count * fee < TWO_64
  {
    var x := count * fee;
    if x >= TWO_64 {
      QuotientBelow(x % TWO_64, count, fee);
    } else {
      QuotientExact(count, fee);
    }
  }

  /** One product of the fee: exact, or reported as overflowing. */
  function Cost(count: uint32, fee: uint64): (r: (uint64, bool))
    ensures r.1 <==> count * fee >= TWO_64
    ensures !r.1 ==> r.0 == count * fee
  {
    var cost := count * fee % TWO_64;
    if fee > 0 then OverflowTest(count, fee); (cost, cost / fee != count) else (cost, false)
  }

  /** A 64-bit addition whose wrap-around is caught by comparing with an operand. */
  function CappedSum(a: uint64, b: uint64, maxFee: uint64): (r: uint64)
    ensures r as int == Min(a + b, maxFee)
  {
    var actual := (a + b) % TWO_64;
    if actual < a then maxFee
    else if actual > maxFee then maxFee else actual
  }

  /** CalculatePerTokenFee, in uint64 arithmetic, computes the true capped sum for every input. */
  function CalculatePerTokenFee(inTokens: uint32, outTokens: uint32,
                                feeIn: uint64, feeOut: uint64, maxFee: uint64): (fee: uint64)
    ensures fee as int == Min(inTokens * feeIn + outTokens * feeOut, maxFee)
  {
    var inTrue: nat, outTrue: nat := inTokens * feeIn, outTokens * feeOut;
    var (inCost, inOverflow) := Cost(inTokens, feeIn);
    if inOverflow then maxFee else
      var (outCost, outOverflow) := Cost(outTokens, feeOut);
      if outOverflow then maxFee else
        CappedSum(inCost, outCost, maxFee)
  }
}
