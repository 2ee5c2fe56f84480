/** Splitting an epoch's reward between recipients with 18-decimal weights
    (x/reward/keeper/keeper.go:102-400). Decimal division and multiplication round half to even, as
    cosmossdk.io/math does; the splits are exact although the weights are rounded. */
module PoolSplit {
  import opened Sums
  import opened FeeSplit

  // ---------- 18-decimal arithmetic ----------

  const ONE: nat := 1_000_000_000_000_000_000

  /** Divide by 10^18, rounding half to even: off by at most half a unit. */
  function Chop(x: nat): (r: nat)
    ensures 2 * x - ONE <= 2 * (r * ONE) <= 2 * x + ONE
  {
    var q, rem := x / 1_000_000_000_000_000_000, x % 1_000_000_000_000_000_000;
    if rem < 500_000_000_000_000_000 || (rem == 500_000_000_000_000_000 && q % 2 == 0) then q else q + 1
  }

  /** The quotient of two integers as a decimal. */
  function Quo(a: nat, b: nat): nat
    requires b > 0
  {
    Chop(a * ONE * ONE / b)
  }

  function Mul(w: nat, q: nat): nat { Chop(w * q) }

  lemma QuoBound(a: nat, b: nat)
    requires b > 0
    ensures 2 * (Quo(a, b) * b) <= 2 * (a * ONE) + b
  {
    var x, r := a * ONE * ONE / b, Quo(a, b);
    assert x * b <= a * ONE * ONE;
    MulMonotone(2 * (r * ONE), 2 * x + ONE, b);
    assert 2 * (r * ONE) * b == ONE * (2 * (r * b)) && (2 * x + ONE) * b == 2 * (x * b) + ONE * b;
    assert a * ONE * ONE == ONE * (a * ONE);
  }

  // ---------- One weighted component ----------

  /** `w` times the share of `x` in `total`. */
  function Part(w: nat, x: nat, total: nat): nat {
    if total > 0 then Mul(w, Quo(x, total)) else 0
  }

  function PartSum(w: nat, xs: seq<nat>, total: nat): nat {
    if xs == [] then 0 else Part(w, xs[0], total) + PartSum(w, xs[1..], total)
  }

  function SumOf(xs: seq<nat>): nat {
    if xs == [] then 0 else xs[0] + SumOf(xs[1..])
  }

  lemma Assoc(a: int, b: int, c: int)
    ensures a * b * c == a * (b * c)
  {
  }

  lemma Swap(a: int, b: int, c: int)
    ensures a * b * c == b * a * c == b * (a * c)
  {
  }

  lemma Distribute(a: int, b: int, c: int)
    ensures (a + b) * c == a * c + b * c
  {
  }

  /** (2a) * c <= (2b + d) * c, spelled out. */
  lemma Scale(a: nat, b: nat, d: nat, c: nat)
    requires 2 * a <= 2 * b + d
    ensures 2 * (a * c) <= 2 * (b * c) + d * c
  {
    MulMonotone(2 * a, 2 * b + d, c);
    Assoc(2, a, c);
    Assoc(2, b, c);
    Distribute(2 * b, d, c);
  }

  /** Two roundings: the component exceeds w * x / total by at most (w/10^18 + 1)/2 units. */
  lemma PartBound(w: nat, x: nat, total: nat)
    requires total > 0
    ensures 2 * ONE * (Part(w, x, total) * total) <= 2 * ONE * (w * x) + (w + ONE) * total
  {
    var q, a := Quo(x, total), Part(w, x, total);
    QuoBound(x, total);
    Scale(a * ONE, w * q, ONE, total);
    Scale(q * total, x * ONE, total, w);
    assert a * ONE * total == ONE * (a * total) by { Swap(a, ONE, total); }
    assert w * q * total == q * total * w by { Assoc(w, q, total); }
    assert x * ONE * w == ONE * (w * x) by { Swap(x, ONE, w); }
    Distribute(w, ONE, total);
  }

  lemma Monotone(a: int, b: int, c: nat)
    requires a <= b
    ensures a * c <= b * c
  {
    MulMonotone(0, b - a, c);
    Distribute(b - a, a, c);
  }

  /** Both sides times c, spelled out. */
  lemma ScaleTwo(k: nat, x: int, l: nat, y: int, m: nat, z: int, c: nat)
    requires k * x <= l * y + m * z
    ensures k * (x * c) <= l * (y * c) + m * (z * c)
  {
    Monotone(k * x, l * y + m * z, c);
    Distribute(l * y, m * z, c);
    Assoc(k, x, c);
    Assoc(l, y, c);
    Assoc(m, z, c);
  }

  lemma QuoLower(a: nat, b: nat)
    requires b > 0
    ensures 2 * ONE * ONE * a <= 2 * ONE * (Quo(a, b) * b) + (ONE + 2) * b
  {
    var n := a * ONE * ONE;
    var x, r := n / b, Quo(a, b);
    assert n < x * b + b;
    ScaleTwo(2, x, 2 * ONE, r, ONE, 1, b);
  }

  lemma MulLower(w: nat, q: nat)
    ensures 2 * (w * q) <= 2 * ONE * Mul(w, q) + ONE * 1
  {
  }

  /** The bounds of both roundings put together; `t` stands for a * total and so on. */
  lemma TwoRoundings(wx: int, wqt: int, wt: int, t: int, total: nat)
    requires 2 * ONE * ONE * wx <= 2 * ONE * wqt + (ONE + 2) * wt
    requires 2 * wqt <= 2 * ONE * t + ONE * total && wt <= ONE * total
    ensures wx <= t + 2 * total
  {
  }

  /** With numbers in place of what computes them. */
  lemma LowerBound(w: nat, x: nat, total: nat, q: nat, a: nat)
    requires 2 * ONE * ONE * x <= 2 * ONE * (q * total) + (ONE + 2) * total
    requires 2 * (w * q) <= 2 * ONE * a + ONE * 1 && w <= ONE
    ensures w * x <= a * total + 2 * total
  {
    ScaleTwo(2 * ONE * ONE, x, 2 * ONE, q * total, ONE + 2, total, w);
    ScaleTwo(2, w * q, 2 * ONE, a, ONE, 1, total);
    Swap(w, q, total);
    Swap(q, w, total);
    Swap(q, total, w);
    MulMonotone(w, ONE, total);
    TwoRoundings(x * w, q * total * w, total * w, a * total, total);
  }

  lemma PartLower(w: nat, x: nat, total: nat)
    requires total > 0 && w <= ONE
    ensures w * x <= Part(w, x, total) * total + 2 * total
  {
    QuoLower(x, total);
    MulLower(w, Quo(x, total));
    LowerBound(w, x, total, Quo(x, total), Part(w, x, total));
  }

  lemma UpperBound(w: nat, wx: int, total: nat, t: int)
    requires 2 * ONE * t <= 2 * ONE * wx + (w + ONE) * total && w <= ONE
    ensures t <= wx + total
  {
    MulMonotone(w + ONE, 2 * ONE, total);
  }

  lemma PartUpper(w: nat, x: nat, total: nat)
    requires total > 0 && w <= ONE
    ensures Part(w, x, total) * total <= w * x + total
  {
    PartBound(w, x, total);
    UpperBound(w, w * x, total, Part(w, x, total) * total);
  }

  /** A component is within two units in the eighteenth place of the share it stands for. */
  lemma PartIsShare(w: nat, x: nat, total: nat)
    requires total > 0 && w <= ONE
    ensures Part(w, x, total) * total <= w * x + total && w * x <= Part(w, x, total) * total + 2 * total
  {
    PartUpper(w, x, total);
    PartLower(w, x, total);
  }

  /** Adding one recipient, with the numbers in place of what computes them. */
  lemma OneMore(u: int, w: int, total: int, unit: int, a: int, x: int, rest: int, sum: int, n: int)
    requires u * (a * total) <= u * (w * x) + unit
    requires u * (rest * total) <= u * (w * sum) + n * unit
    ensures u * ((a + rest) * total) <= u * (w * (x + sum)) + (n + 1) * unit
  {
    Distribute(a, rest, total);
    Distribute(x, sum, w);
    Distribute(n, 1, unit);
    assert u * (a * total + rest * total) == u * (a * total) + u * (rest * total);
    assert u * (w * x + w * sum) == u * (w * x) + u * (w * sum);
  }

  lemma {:induction false} PartSumBound(w: nat, xs: seq<nat>, total: nat)
    requires total > 0
    ensures 2 * ONE * (PartSum(w, xs, total) * total) <= 2 * ONE * (w * SumOf(xs)) + |xs| * ((w + ONE) * total)
  {
    if xs != [] {
      PartBound(w, xs[0], total);
      PartSumBound(w, xs[1..], total);
      OneMore(2 * ONE, w, total, (w + ONE) * total, Part(w, xs[0], total), xs[0],
              PartSum(w, xs[1..], total), SumOf(xs[1..]), |xs[1..]|);
    }
  }

  lemma CancelRight(a: int, b: int, c: nat)
    requires c > 0 && a * c <= b * c
    ensures a <= b
  {
    MulStep(b, a, c);
  }

  /** Some of the recipients together get at most w, plus their rounding. */
  lemma PartSumAtMost(w: nat, xs: seq<nat>, total: nat)
    requires SumOf(xs) <= total
    ensures 2 * ONE * PartSum(w, xs, total) <= 2 * ONE * w + |xs| * (w + ONE)
  {
    if total == 0 {
      NoTotal(w, xs);
    } else {
      PartSumBound(w, xs, total);
      MulMonotone(SumOf(xs), total, w);
      var a, n := PartSum(w, xs, total), |xs|;
      Assoc(2 * ONE, a, total);
      Assoc(2 * ONE, w, total);
      Assoc(n, w + ONE, total);
      Distribute(2 * ONE * w, n * (w + ONE), total);
      CancelRight(2 * ONE * a, 2 * ONE * w + n * (w + ONE), total);
    }
  }

  lemma {:induction false} NoTotal(w: nat, xs: seq<nat>)
    ensures PartSum(w, xs, 0) == 0
  {
    if xs != [] { NoTotal(w, xs[1..]); }
  }

  // ---------- Shares of one pool ----------

  /** A recipient's claim: fees and tasks, or signed blocks, or stake. */
  datatype Claim = Claim(address: Address, fee: nat, count: nat)
  datatype Grant = Grant(address: Address, amount: nat)
  type Weight = Claim -> nat
  type Share = Claim -> nat

  function Truncated(weight: nat, reward: nat): nat { weight * reward / 1_000_000_000_000_000_000 }

  /** The truncated shares that weights give in a reward. */
  function ShareOf(w: Weight, reward: nat): Share { (c: Claim) => Truncated(w(c), reward) }

  /** What the remaining claims are granted: their truncated share, the last one what is left.
      Shares that are not positive are not minted. */
  function Allocations(cs: seq<Claim>, share: Share, reward: nat, given: nat): seq<Grant> {
    if cs == [] then [] else
      var alloc := if |cs| == 1 then reward - given else share(cs[0]);
      if alloc > 0 then [Grant(cs[0].address, alloc)] + Allocations(cs[1..], share, reward, given + alloc)
      else Allocations(cs[1..], share, reward, given)
  }

  function GrantSum(gs: seq<Grant>): nat {
    if gs == [] then 0 else gs[0].amount + GrantSum(gs[1..])
  }

  function WeightButLast(cs: seq<Claim>, w: Weight): nat {
    if |cs| <= 1 then 0 else w(cs[0]) + WeightButLast(cs[1..], w)
  }

  function GivenButLast(cs: seq<Claim>, share: Share): nat {
    if |cs| <= 1 then 0 else share(cs[0]) + GivenButLast(cs[1..], share)
  }

  /** The grants add up to the reward, or to what the others got if that is more. */
  lemma {:induction false} GrantTotal(cs: seq<Claim>, share: Share, reward: nat, given: nat)
    requires cs != []
    ensures var others := given + GivenButLast(cs, share);
            given + GrantSum(Allocations(cs, share, reward, given)) == if others <= reward then reward else others
    decreases |cs|
  {
    var alloc := if |cs| == 1 then reward - given else share(cs[0]);
    if |cs| > 1 { GrantTotal(cs[1..], share, reward, given + alloc); }
    if alloc > 0 {
      assert Allocations(cs, share, reward, given)[1..] == Allocations(cs[1..], share, reward, given + alloc);
    }
  }

  /** Exactly: the reward is minted to the coin if and only if the truncated shares of all but the last fit it. */
  lemma SplitExactIff(cs: seq<Claim>, share: Share, reward: nat)
    requires cs != []
    ensures GrantSum(Allocations(cs, share, reward, 0)) == reward <==> GivenButLast(cs, share) <= reward
  {
    GrantTotal(cs, share, reward, 0);
  }

  // ---------- Who gets what ----------

  /** What an address is granted. */
  ghost function GrantedTo(gs: seq<Grant>, a: Address): nat {
    if gs == [] then 0 else (if gs[0].address == a then gs[0].amount else 0) + GrantedTo(gs[1..], a)
  }

  /** Its shares, except for the last claim. */
  ghost function SharesOf(cs: seq<Claim>, share: Share, a: Address): nat {
    if |cs| <= 1 then 0 else (if cs[0].address == a then share(cs[0]) else 0) + SharesOf(cs[1..], share, a)
  }

  /** Every claim but the last is granted its share, and the last one what that leaves. */
  lemma {:induction false} EachGets(cs: seq<Claim>, share: Share, reward: nat, given: nat, a: Address)
    requires cs != []
    ensures var left := reward - given - GivenButLast(cs, share);
            GrantedTo(Allocations(cs, share, reward, given), a) ==
            SharesOf(cs, share, a) + if cs[|cs| - 1].address == a && left > 0 then left else 0
    decreases |cs|
  {
    var alloc := if |cs| == 1 then reward - given else share(cs[0]);
    if |cs| > 1 { EachGets(cs[1..], share, reward, given + alloc, a); }
    if alloc > 0 {
      assert Allocations(cs, share, reward, given)[1..] == Allocations(cs[1..], share, reward, given + alloc);
    }
  }

  lemma {:induction false} GivenBound(cs: seq<Claim>, w: Weight, reward: nat)
    ensures GivenButLast(cs, ShareOf(w, reward)) * ONE <= WeightButLast(cs, w) * reward
    decreases |cs|
  {
    if |cs| > 1 {
      GivenBound(cs[1..], w, reward);
      Distribute(w(cs[0]), WeightButLast(cs[1..], w), reward);
    }
  }

  /** The weights exceed one by less than the rounding of their claims. */
  ghost predicate Light(cs: seq<Claim>, w: Weight) {
    cs != [] && 2 * WeightButLast(cs, w) <= 2 * ONE + 3 * (|cs| - 1)
  }

  /** The rounding of n claims is worth less than one coin. */
  ghost predicate RoundingIsSmall(n: nat, reward: nat) {
    n > 0 ==> 3 * (n - 1) * reward < 2 * ONE
  }

  lemma LeavesEnough(given: nat, weight: nat, n: nat, reward: nat)
    requires given * ONE <= weight * reward && 2 * weight <= 2 * ONE + 3 * n && 3 * n * reward < 2 * ONE
    ensures given <= reward
  {
    Scale(weight, ONE, 3 * n, reward);
  }

  lemma SplitExact(cs: seq<Claim>, w: Weight, reward: nat)
    requires Light(cs, w) && RoundingIsSmall(|cs|, reward)
    ensures GrantSum(Allocations(cs, ShareOf(w, reward), reward, 0)) == reward
  {
    GivenBound(cs, w, reward);
    LeavesEnough(GivenButLast(cs, ShareOf(w, reward)), WeightButLast(cs, w), |cs| - 1, reward);
    GrantTotal(cs, ShareOf(w, reward), reward, 0);
  }

  // ---------- The weights of the four pools ----------

  function FeeTotal(cs: seq<Claim>): nat { if cs == [] then 0 else cs[0].fee + FeeTotal(cs[1..]) }
  function CountTotal(cs: seq<Claim>): nat { if cs == [] then 0 else cs[0].count + CountTotal(cs[1..]) }

  /** Fee share and count share, weighted. */
  ghost predicate Weighs(w: Weight, fees: nat, counts: nat, feeWeight: nat, countWeight: nat) {
    forall c :: w(c) == Part(feeWeight, c.fee, fees) + Part(countWeight, c.count, counts)
  }

  /** A part in 10^18 within two units of `w` times the share of `x` in `total`; nothing of nothing. */
  ghost predicate IsPartOf(a: nat, w: nat, x: nat, total: nat) {
    if total == 0 then a == 0 else a * total <= w * x + total && w * x <= a * total + 2 * total
  }

  /** The part `a` of a reward, truncated. */
  ghost predicate Truncates(a: nat, reward: nat, share: nat) { share * ONE <= a * reward < (share + 1) * ONE }

  /** So the share of a claim is, within rounding, what its fees and its count are of all, weighted. */
  lemma SharesAreProportional(w: Weight, fees: nat, counts: nat, feeWeight: nat, countWeight: nat, reward: nat,
                              c: Claim)
    requires Weighs(w, fees, counts, feeWeight, countWeight) && feeWeight + countWeight == ONE
    ensures exists f: nat, n: nat :: IsPartOf(f, feeWeight, c.fee, fees) && IsPartOf(n, countWeight, c.count, counts)
                                     && Truncates(f + n, reward, ShareOf(w, reward)(c))
  {
    var f, n := Part(feeWeight, c.fee, fees), Part(countWeight, c.count, counts);
    if fees > 0 { PartIsShare(feeWeight, c.fee, fees); }
    if counts > 0 { PartIsShare(countWeight, c.count, counts); }
    assert w(c) == f + n;
    TruncatedSpec(f + n, reward);
    assert IsPartOf(f, feeWeight, c.fee, fees) && IsPartOf(n, countWeight, c.count, counts);
  }

  lemma TruncatedSpec(a: nat, reward: nat)
    ensures Truncates(a, reward, Truncated(a, reward))
  {
  }

  function FeesButLast(cs: seq<Claim>): seq<nat> { if |cs| <= 1 then [] else [cs[0].fee] + FeesButLast(cs[1..]) }
  function CountsButLast(cs: seq<Claim>): seq<nat> { if |cs| <= 1 then [] else [cs[0].count] + CountsButLast(cs[1..]) }

  lemma {:induction false} ButLastFits(cs: seq<Claim>)
    ensures SumOf(FeesButLast(cs)) <= FeeTotal(cs) && SumOf(CountsButLast(cs)) <= CountTotal(cs)
    ensures |cs| > 0 ==> |FeesButLast(cs)| == |CountsButLast(cs)| == |cs| - 1
    decreases |cs|
  {
    if |cs| > 1 {
      ButLastFits(cs[1..]);
      assert FeesButLast(cs)[1..] == FeesButLast(cs[1..]) && CountsButLast(cs)[1..] == CountsButLast(cs[1..]);
    }
  }

  lemma {:induction false} WeightSplits(cs: seq<Claim>, w: Weight, fees: nat, counts: nat, feeWeight: nat,
                                        countWeight: nat)
    requires Weighs(w, fees, counts, feeWeight, countWeight)
    ensures WeightButLast(cs, w) ==
            PartSum(feeWeight, FeesButLast(cs), fees) + PartSum(countWeight, CountsButLast(cs), counts)
    decreases |cs|
  {
    if |cs| > 1 {
      WeightSplits(cs[1..], w, fees, counts, feeWeight, countWeight);
      assert FeesButLast(cs)[1..] == FeesButLast(cs[1..]) && CountsButLast(cs)[1..] == CountsButLast(cs[1..]);
    }
  }

  lemma TwoParts(a: nat, b: nat, f: nat, c: nat, n: nat)
    requires 2 * ONE * a <= 2 * ONE * f + n * (f + ONE) && 2 * ONE * b <= 2 * ONE * c + n * (c + ONE) && f + c == ONE
    ensures 2 * (a + b) <= 2 * ONE + 3 * n
  {
    assert n * (f + ONE) + n * (c + ONE) == n * (3 * ONE) == 3 * n * ONE by {
      Distribute(f + ONE, c + ONE, n);
    }
    assert 2 * ONE * a + 2 * ONE * b == 2 * (a + b) * ONE;
    assert 2 * ONE * f + 2 * ONE * c == 2 * ONE * ONE;
    CancelRight(2 * (a + b), 2 * ONE + 3 * n, ONE);
  }

  /** Weights that add up to one are light, whatever the claims. */
  lemma WeighsLight(cs: seq<Claim>, w: Weight, feeWeight: nat, countWeight: nat)
    requires cs != [] && feeWeight + countWeight == ONE
    requires Weighs(w, FeeTotal(cs), CountTotal(cs), feeWeight, countWeight)
    ensures Light(cs, w)
  {
    ButLastFits(cs);
    WeightSplits(cs, w, FeeTotal(cs), CountTotal(cs), feeWeight, countWeight);
    PartSumAtMost(feeWeight, FeesButLast(cs), FeeTotal(cs));
    PartSumAtMost(countWeight, CountsButLast(cs), CountTotal(cs));
    TwoParts(PartSum(feeWeight, FeesButLast(cs), FeeTotal(cs)), PartSum(countWeight, CountsButLast(cs), CountTotal(cs)),
             feeWeight, countWeight, |cs| - 1);
  }

  /** The exact split: for every list of claims and every pair of weights that add up to one. */
  lemma PoolSplitExact(cs: seq<Claim>, w: Weight, reward: nat, feeWeight: nat, countWeight: nat)
    requires cs != [] && feeWeight + countWeight == ONE && RoundingIsSmall(|cs|, reward)
    requires Weighs(w, FeeTotal(cs), CountTotal(cs), feeWeight, countWeight)
    ensures GrantSum(Allocations(cs, ShareOf(w, reward), reward, 0)) == reward
  {
    WeighsLight(cs, w, feeWeight, countWeight);
    SplitExact(cs, w, reward);
  }

  // ---------- Where it stops being exact ----------

  /** k claims of one each, and an empty one. */
  function Equal(a: Address, k: nat): seq<Claim> {
    if k == 0 then [Claim(a, 0, 0)] else [Claim(a, 0, 1)] + Equal(a, k - 1)
  }

  /** A sixth rounds up. */
  lemma Sixth()
    ensures Part(0, 0, 0) + Part(ONE, 1, 6) == 166_666_666_666_666_667
  {
  }

  lemma {:induction false} SixthsGiven(a: Address, k: nat, w: Weight)
    requires Weighs(w, 0, 6, 0, ONE)
    ensures GivenButLast(Equal(a, k), ShareOf(w, ONE)) == k * 166_666_666_666_666_667
    ensures |Equal(a, k)| == k + 1 && FeeTotal(Equal(a, k)) == 0 && CountTotal(Equal(a, k)) == k
  {
    if k == 0 {
      assert Equal(a, 0)[1..] == [];
    } else {
      SixthsGiven(a, k - 1, w);
      Sixth();
      assert Equal(a, k)[0] == Claim(a, 0, 1) && Equal(a, k)[1..] == Equal(a, k - 1);
      assert w(Claim(a, 0, 1)) == 166_666_666_666_666_667;
    }
  }

  /** Six equal claims and an empty one on a reward of 10^18 coins: two coins too many are minted.
      The rounding of seven recipients is then worth more than a coin. */
  lemma LargeRewardOverflows(a: Address, w: Weight)
    requires Weighs(w, 0, 6, 0, ONE)
    ensures var cs := Equal(a, 6);
            && FeeTotal(cs) == 0 && CountTotal(cs) == 6 && !RoundingIsSmall(|cs|, ONE)
            && GrantSum(Allocations(cs, ShareOf(w, ONE), ONE, 0)) == ONE + 2
  {
    SixthsGiven(a, 6, w);
    GrantTotal(Equal(a, 6), ShareOf(w, ONE), ONE, 0);
  }
}
