/** Block rewards with halving, and the epochs that mint them (x/reward/keeper/keeper.go:69-100,
    x/reward/types/params.go:12-18, x/reward/module.go:119-128). */
module Issuance {
  import opened Sums

  // ---------- Halving ----------

  /** k times divided by two, each time rounding down. */
  function Halved(base: nat, k: nat): nat {
    if k == 0 then base else Halved(base, k - 1) / 2
  }

  lemma HalveQuotient(n: nat, d: nat, q: nat)
    requires IsQuotient(n, d, q)
    ensures IsQuotient(n, 2 * d, q / 2)
  {
    var h := q / 2;
    var x := h * d;
    assert h * (2 * d) == 2 * x;
    if q == 2 * h {
      assert q * d == 2 * x;
    } else {
      assert q == 2 * h + 1 && q * d == 2 * x + d;
    }
  }

  lemma {:induction false} HalvedIsQuotient(base: nat, k: nat)
    ensures IsQuotient(base, Pow2(k), Halved(base, k))
  {
    if k > 0 {
      HalvedIsQuotient(base, k - 1);
      HalveQuotient(base, Pow2(k - 1), Halved(base, k - 1));
    }
  }

  /** Iterated halving is one division by a power of two. */
  lemma HalvingIsDivision(base: nat, k: nat)
    ensures Halved(base, k) == base / Pow2(k)
  {
    HalvedIsQuotient(base, k);
    QuotientIsUnique(base, Pow2(k), Halved(base, k));
  }

  /** The reward per block after k halvings; nothing from the 64th on. */
  function Era(base: nat, k: nat): nat {
    if k >= 64 then 0 else Halved(base, k)
  }

  function BlockReward(base: nat, period: nat, height: nat): nat
    requires period > 0
  {
    Era(base, height / period)
  }

  method CalculateBlockReward(base: nat, period: nat, height: nat) returns (reward: nat)
    requires period > 0
    ensures reward == BlockReward(base, period, height)
    ensures height / period < 64 ==> reward == base / Pow2(height / period)
  {
    var halvings := height / period;
    if halvings >= 64 { return 0; }
    reward := base;
    for i := 0 to halvings
      invariant reward == Halved(base, i)
    {
      reward := reward / 2;
    }
    HalvingIsDivision(base, halvings);
  }

  // ---------- The cap ----------

  /** Everything issued for the heights first..last. */
  function Issued(base: nat, period: nat, first: nat, last: int): nat
    requires period > 0
    decreases last
  {
    if last < first then 0 else Issued(base, period, first, last - 1) + BlockReward(base, period, last)
  }

  lemma EraHalves(base: nat, k: nat)
    ensures 2 * Era(base, k + 1) <= Era(base, k)
  {
  }

  /** Within era k at most `r` blocks of it have been paid, and all earlier eras fit below. */
  ghost function Ceiling(base: nat, period: nat, k: nat, r: nat): int {
    period * (2 * base - 2 * Era(base, k)) + r * Era(base, k)
  }

  /** Moving on to the next era leaves room for what it will pay. */
  lemma NextEra(base: nat, period: nat, k: nat)
    ensures Ceiling(base, period, k, period) <= Ceiling(base, period, k + 1, 0)
  {
    EraHalves(base, k);
    var e, f := Era(base, k), Era(base, k + 1);
    assert period * (2 * base - 2 * e) + period * e == period * (2 * base - e);
    assert period * (2 * base - 2 * f) == period * (2 * base - e) + period * (e - 2 * f);
  }

  lemma {:induction false} IssuedBelowCeiling(base: nat, period: nat, height: nat)
    requires period > 0
    ensures Issued(base, period, 1, height) <= Ceiling(base, period, height / period, height % period + 1)
  {
    if height > 0 {
      IssuedBelowCeiling(base, period, height - 1);
      NextHeight(height, period);
      var k, r := height / period, height % period;
      OneBlockMore(base, period, k, r);
      if r == 0 { NextEra(base, period, k - 1); }
    } else {
      QuotientIsUnique(0, period, 0);
    }
  }

  lemma OneBlockMore(base: nat, period: nat, k: nat, r: nat)
    ensures Ceiling(base, period, k, r + 1) == Ceiling(base, period, k, r) + Era(base, k)
  {
    assert (r + 1) * Era(base, k) == r * Era(base, k) + Era(base, k);
  }

  lemma NextHeight(height: nat, period: nat)
    requires period > 0 && height > 0
    ensures if height % period == 0
            then height / period > 0 && (height - 1) / period == height / period - 1
                 && (height - 1) % period == period - 1
            else (height - 1) / period == height / period && (height - 1) % period == height % period - 1
  {
    var k, r := height / period, height % period;
    assert height == k * period + r;
    if r == 0 {
      assert k > 0;
      assert (k - 1) * period == k * period - period;
      QuotientIsUnique(height - 1, period, k - 1);
    } else {
      QuotientIsUnique(height - 1, period, k);
    }
    assert height - 1 == (height - 1) / period * period + (height - 1) % period;
  }

  /** A full era's ceiling is below the cap. */
  lemma CeilingBelowCap(base: nat, period: nat, k: nat, r: nat)
    requires r <= period
    ensures Ceiling(base, period, k, r) <= 2 * base * period
  {
    var e := Era(base, k);
    MulMonotone(r, period, e);
    assert period * (2 * base - 2 * e) == period * (2 * base) - period * (2 * e);
    assert period * (2 * e) == period * e + period * e && period * e >= 0;
    assert period * (2 * base) == 2 * base * period;
  }

  /** Block rewards never add up to more than twice the base reward times the halving period. */
  lemma IssuanceCap(base: nat, period: nat, height: nat)
    requires period > 0
    ensures Issued(base, period, 1, height) <= 2 * base * period
  {
    IssuedBelowCeiling(base, period, height);
    CeilingBelowCap(base, period, height / period, height % period + 1);
  }

  const DEFAULT_BASE: nat := 4_000_000_000
  const DEFAULT_PERIOD: nat := 26_250_000
  const DEFAULT_TOTAL_SUPPLY: nat := 210_000_000_000_000_000

  /** At the default parameters the cap is the total supply. */
  lemma DefaultCap(height: nat)
    ensures Issued(DEFAULT_BASE, DEFAULT_PERIOD, 1, height) <= DEFAULT_TOTAL_SUPPLY
  {
    IssuanceCap(DEFAULT_BASE, DEFAULT_PERIOD, height);
  }

  // ---------- Epochs ----------

  /** CalculateEpochReward for the epoch ending at `end`. */
  function EpochReward(base: nat, period: nat, epochBlocks: nat, end: int): nat
    requires period > 0
  {
    Issued(base, period, if end - epochBlocks + 1 < 1 then 1 else end - epochBlocks + 1, end)
  }

  method CalculateEpochReward(base: nat, period: nat, epochBlocks: nat, end: nat) returns (total: nat)
    requires period > 0
    ensures total == EpochReward(base, period, epochBlocks, end)
  {
    var start: int := end - epochBlocks + 1;
    if start < 1 { start := 1; }
    total := 0;
    var h := start;
    while h <= end
      invariant start <= h && (start <= end + 1 ==> h <= end + 1)
      invariant h <= end + 1 ==> total == Issued(base, period, start, h - 1)
      invariant h > end + 1 ==> total == 0
    {
      var reward := CalculateBlockReward(base, period, h);
      total := total + reward;
      h := h + 1;
    }
  }

  /** What all epochs fired up to `height` mint: one fires at each multiple of the epoch length. */
  function Fired(base: nat, period: nat, epochBlocks: nat, height: nat): nat
    requires period > 0 && epochBlocks > 0
  {
    if height == 0 then 0 else
      Fired(base, period, epochBlocks, height - 1) +
      if height % epochBlocks == 0 then EpochReward(base, period, epochBlocks, height) else 0
  }

  lemma {:induction false} IssuedSplit(base: nat, period: nat, first: nat, mid: nat, last: int)
    requires period > 0 && first <= mid <= last + 1
    ensures Issued(base, period, first, last) == Issued(base, period, first, mid - 1) + Issued(base, period, mid, last)
    decreases last - mid
  {
    if mid <= last { IssuedSplit(base, period, first, mid, last - 1); }
  }

  /** The fired epochs cover each height up to the last boundary exactly once. */
  lemma {:induction false} EpochsTile(base: nat, period: nat, epochBlocks: nat, height: nat)
    requires period > 0 && epochBlocks > 0
    ensures Fired(base, period, epochBlocks, height) == Issued(base, period, 1, height - height % epochBlocks)
  {
    if height > 0 {
      EpochsTile(base, period, epochBlocks, height - 1);
      NextHeight(height, epochBlocks);
      if height % epochBlocks == 0 {
        AtLeastOneEpoch(height, epochBlocks);
        IssuedSplit(base, period, 1, height - epochBlocks + 1, height);
      }
    }
  }

  lemma AtLeastOneEpoch(height: nat, epochBlocks: nat)
    requires epochBlocks > 0 && height > 0 && height % epochBlocks == 0
    ensures height >= epochBlocks
  {
    var k := height / epochBlocks;
    assert height == k * epochBlocks;
    MulStep(0, k, epochBlocks);
  }

  /** The epoch a height belongs to is unique, and is the one numbered (h-1)/epochBlocks + 1. */
  lemma EpochOfHeight(h: nat, epochBlocks: nat, m: nat)
    requires epochBlocks > 0 && h >= 1 && m >= 1
    ensures (m - 1) * epochBlocks + 1 <= h <= (m - 1) * epochBlocks + epochBlocks <==> m == (h - 1) / epochBlocks + 1
  {
    var q := (h - 1) / epochBlocks;
    assert IsQuotient(h - 1, epochBlocks, q);
    if IsQuotient(h - 1, epochBlocks, m - 1) { QuotientIsUnique(h - 1, epochBlocks, m - 1); }
  }

  /** So the epochs fired by any height mint at most the cap. */
  lemma EpochsWithinCap(base: nat, period: nat, epochBlocks: nat, height: nat)
    requires period > 0 && epochBlocks > 0
    ensures Fired(base, period, epochBlocks, height) <= 2 * base * period
  {
    EpochsTile(base, period, epochBlocks, height);
    var last := height - height % epochBlocks;
    assert last >= 0 by { assert height == height / epochBlocks * epochBlocks + height % epochBlocks; }
    IssuanceCap(base, period, last);
  }
}
