/** The reward keeper as it runs: four loops that mint shares of a pool, and the epoch distribution
    that calls them (x/reward/keeper/keeper.go:102-400, x/reward/types/params.go:62-96). */
module Rewards {
  import opened Sums
  import opened FeeSplit
  import opened PoolSplit
  import Issuance

  datatype RewardParams = RewardParams(base: nat, period: nat, epochBlocks: nat, feeWeight: nat, countWeight: nat,
                                       inference: nat, verification: nat, fund: nat)

  /** Params.Validate: both sets of weights add up to one. */
  ghost predicate Valid(p: RewardParams) {
    && p.period > 0 && p.epochBlocks > 0 && p.feeWeight + p.countWeight == ONE
    && p.inference + p.verification + p.fund == ONE
  }

  /** Coins minted so far, whom they went to, and what went into the multi-verification fund. */
  class Mint {
    var supply: nat
    var grants: seq<Grant>
    var fund: nat

    constructor ()
      ensures supply == 0 && grants == [] && fund == 0
    {
      supply, grants, fund := 0, [], 0;
    }

    /** mintAndSend: mints first, so a bad recipient leaves coins in the module account. */
    method MintAndSend(a: Address, amount: nat, refused: set<nat>) returns (ok: bool)
      modifies this
      ensures supply == old(supply) + amount && fund == old(fund)
      ensures ok <==> a.Bech32? && a.account !in refused
      ensures grants == if ok then old(grants) + [Grant(a, amount)] else old(grants)
    {
      supply := supply + amount;
      if !a.Bech32? || a.account in refused { return false; }
      grants := grants + [Grant(a, amount)];
      return true;
    }
  }

  ghost predicate Accepts(gs: seq<Grant>, refused: set<nat>) {
    forall g :: g in gs ==> g.address.Bech32? && g.address.account !in refused
  }

  /** The grants to come, one claim further. */
  lemma AllocationsAt(cs: seq<Claim>, i: nat, share: Share, reward: nat, given: nat)
    requires i < |cs|
    ensures var alloc := if i == |cs| - 1 then reward - given else share(cs[i]);
            Allocations(cs[i..], share, reward, given) ==
            if alloc > 0 then [Grant(cs[i].address, alloc)] + Allocations(cs[i + 1..], share, reward, given + alloc)
            else Allocations(cs[i + 1..], share, reward, given)
  {
    assert cs[i..][0] == cs[i] && cs[i..][1..] == cs[i + 1..];
  }

  /** What was granted, followed by the grants to come, is what was to be granted. */
  ghost predicate OnTrack(before: seq<Grant>, had: nat, all: seq<Grant>, grants: seq<Grant>, supply: nat,
                          rest: seq<Grant>, refused: set<nat>) {
    && before + all == grants + rest && had + GrantSum(all) == supply + GrantSum(rest)
    && (Accepts(all, refused) <==> Accepts(rest, refused))
  }

  lemma GrantOnTrack(before: seq<Grant>, had: nat, all: seq<Grant>, grants: seq<Grant>, supply: nat,
                     g: Grant, rest: seq<Grant>, refused: set<nat>)
    requires OnTrack(before, had, all, grants, supply, [g] + rest, refused)
    ensures g.address.Bech32? && g.address.account !in refused ==>
              OnTrack(before, had, all, grants + [g], supply + g.amount, rest, refused)
    ensures !(g.address.Bech32? && g.address.account !in refused) ==> !Accepts(all, refused)
  {
    assert grants + ([g] + rest) == grants + [g] + rest;
    assert ([g] + rest)[1..] == rest;
  }

  lemma StartOnTrack(grants: seq<Grant>, supply: nat, all: seq<Grant>, refused: set<nat>)
    ensures OnTrack(grants, supply, all, grants, supply, all, refused)
  {
  }

  /** One claim of the loop, from the grants to come before it to those after. */
  lemma ClaimOnTrack(before: seq<Grant>, had: nat, all: seq<Grant>, grants: seq<Grant>, supply: nat,
                     cs: seq<Claim>, i: nat, share: Share, reward: nat, given: nat, refused: set<nat>)
    requires i < |cs| && OnTrack(before, had, all, grants, supply, Allocations(cs[i..], share, reward, given), refused)
    ensures var alloc := if i == |cs| - 1 then reward - given else share(cs[i]);
            if alloc <= 0 then
              OnTrack(before, had, all, grants, supply, Allocations(cs[i + 1..], share, reward, given), refused)
            else if cs[i].address.Bech32? && cs[i].address.account !in refused then
              OnTrack(before, had, all, grants + [Grant(cs[i].address, alloc)], supply + alloc,
                      Allocations(cs[i + 1..], share, reward, given + alloc), refused)
            else !Accepts(all, refused)
  {
    AllocationsAt(cs, i, share, reward, given);
    var alloc := if i == |cs| - 1 then reward - given else share(cs[i]);
    if alloc > 0 {
      var rest := Allocations(cs[i + 1..], share, reward, given + alloc);
      GrantOnTrack(before, had, all, grants, supply, Grant(cs[i].address, alloc), rest, refused);
    }
  }

  /** The loop of every pool: truncated shares by weight, the last claim taking the rest. */
  method Allocate(mint: Mint, cs: seq<Claim>, share: Share, reward: nat, refused: set<nat>) returns (ok: bool)
    modifies mint
    ensures mint.fund == old(mint.fund)
    ensures ok <==> Accepts(Allocations(cs, share, reward, 0), refused)
    ensures ok ==> mint.grants == old(mint.grants) + Allocations(cs, share, reward, 0)
    ensures ok ==> mint.supply == old(mint.supply) + GrantSum(Allocations(cs, share, reward, 0))
  {
    var distributed := 0;
    ghost var all := Allocations(cs, share, reward, 0);
    assert cs[0..] == cs;
    StartOnTrack(mint.grants, mint.supply, all, refused);
    for i := 0 to |cs|
      invariant mint.fund == old(mint.fund)
      invariant OnTrack(old(mint.grants), old(mint.supply), all, mint.grants, mint.supply,
                        Allocations(cs[i..], share, reward, distributed), refused)
    {
      ClaimOnTrack(old(mint.grants), old(mint.supply), all, mint.grants, mint.supply, cs, i, share, reward,
                   distributed, refused);
      var alloc := if i == |cs| - 1 then reward - distributed else share(cs[i]);
      if alloc > 0 {
        var sent := mint.MintAndSend(cs[i].address, alloc, refused);
        if !sent { return false; }
        distributed := distributed + alloc;
      }
    }
    return true;
  }

  lemma {:induction false} TotalSnoc(cs: seq<Claim>, c: Claim)
    ensures FeeTotal(cs + [c]) == FeeTotal(cs) + c.fee && CountTotal(cs + [c]) == CountTotal(cs) + c.count
  {
    if cs == [] {
      assert cs + [c] == [c] && [c][1..] == [];
    } else {
      assert (cs + [c])[1..] == cs[1..] + [c];
      TotalSnoc(cs[1..], c);
    }
  }

  method Totals(cs: seq<Claim>) returns (fees: nat, counts: nat)
    ensures fees == FeeTotal(cs) && counts == CountTotal(cs)
  {
    fees, counts := 0, 0;
    for i := 0 to |cs|
      invariant fees == FeeTotal(cs[..i]) && counts == CountTotal(cs[..i])
    {
      assert cs[..i + 1] == cs[..i] + [cs[i]];
      TotalSnoc(cs[..i], cs[i]);
      fees, counts := fees + cs[i].fee, counts + cs[i].count;
    }
    assert cs[..|cs|] == cs;
  }

  // ---------- The four weight formulas ----------

  function ByContribution(fees: nat, counts: nat, p: RewardParams): Weight {
    (c: Claim) =>
      (if fees > 0 then Mul(p.feeWeight, Quo(c.fee, fees)) else 0) +
      (if counts > 0 then Mul(p.countWeight, Quo(c.count, counts)) else 0)
  }

  /** By count alone when no fees were earned. */
  function ByVerification(fees: nat, counts: nat, p: RewardParams): Weight
    requires counts > 0
  {
    (c: Claim) =>
      if fees == 0 then Quo(c.count, counts) else
        (if c.fee > 0 then Mul(p.feeWeight, Quo(c.fee, fees)) else 0) + Mul(p.countWeight, Quo(c.count, counts))
  }

  /** By one number: signed blocks or stake. */
  function ByCount(counts: nat): Weight
    requires counts > 0
  {
    (c: Claim) => Quo(c.count, counts)
  }

  /** A zero weight, a zero share and a weight of one need no rounding. */
  lemma PlainParts(w: nat, x: nat, total: nat)
    ensures Part(0, x, total) == 0 && Part(w, 0, total) == 0
    ensures total > 0 ==> Part(ONE, x, total) == Quo(x, total)
  {
    assert Chop(0) == 0;
    if total > 0 {
      assert w * 0 == 0;
      assert Quo(0, total) == 0 by { assert 0 * ONE * ONE / total == 0; }
    }
  }

  lemma WeightsAddUp(cs: seq<Claim>, p: RewardParams)
    requires Valid(p)
    ensures var fees, counts := FeeTotal(cs), CountTotal(cs);
            Weighs(ByContribution(fees, counts, p), fees, counts, p.feeWeight, p.countWeight)
    ensures CountTotal(cs) > 0 && FeeTotal(cs) > 0 ==>
              var fees, counts := FeeTotal(cs), CountTotal(cs);
              Weighs(ByVerification(fees, counts, p), fees, counts, p.feeWeight, p.countWeight)
    ensures CountTotal(cs) > 0 && FeeTotal(cs) == 0 ==>
              Weighs(ByVerification(FeeTotal(cs), CountTotal(cs), p), FeeTotal(cs), CountTotal(cs), 0, ONE)
    ensures CountTotal(cs) > 0 ==> Weighs(ByCount(CountTotal(cs)), FeeTotal(cs), CountTotal(cs), 0, ONE)
  {
    var fees, counts := FeeTotal(cs), CountTotal(cs);
    forall c: Claim
      ensures Part(0, c.fee, fees) == 0 && (c.fee == 0 ==> Part(p.feeWeight, c.fee, fees) == 0)
           && (counts > 0 ==> Part(ONE, c.count, counts) == Quo(c.count, counts))
    {
      PlainParts(p.feeWeight, c.fee, fees);
      PlainParts(p.feeWeight, c.count, counts);
    }
  }

  // ---------- The four pools ----------

  /** Grants and supply have grown by exactly these grants. */
  twostate predicate Minted(mint: Mint, gs: seq<Grant>)
    reads mint
  {
    mint.grants == old(mint.grants) + gs && mint.supply == old(mint.supply) + GrantSum(gs)
  }

  method DistributeByContribution(mint: Mint, reward: nat, cs: seq<Claim>, p: RewardParams, refused: set<nat>)
    returns (ok: bool)
    modifies mint
    ensures mint.fund == old(mint.fund)
    ensures var w := ByContribution(FeeTotal(cs), CountTotal(cs), p);
            ok ==> Minted(mint, Allocations(cs, ShareOf(w, reward), reward, 0))
  {
    var fees, counts := Totals(cs);
    ok := Allocate(mint, cs, ShareOf(ByContribution(fees, counts, p), reward), reward, refused);
  }

  /** Nothing is minted without any verification. */
  method DistributeByVerification(mint: Mint, reward: nat, cs: seq<Claim>, p: RewardParams, refused: set<nat>)
    returns (ok: bool)
    modifies mint
    ensures mint.fund == old(mint.fund)
    ensures CountTotal(cs) == 0 ==> ok && Minted(mint, [])
    ensures ok && CountTotal(cs) > 0 ==>
              Minted(mint, Allocations(cs, ShareOf(ByVerification(FeeTotal(cs), CountTotal(cs), p), reward), reward, 0))
  {
    var fees, counts := Totals(cs);
    if counts == 0 { return true; }
    ok := Allocate(mint, cs, ShareOf(ByVerification(fees, counts, p), reward), reward, refused);
  }

  /** distributeByConsensusSigning, and distributeByStake with stakes for counts. */
  method DistributeByCount(mint: Mint, reward: nat, cs: seq<Claim>, refused: set<nat>) returns (ok: bool)
    modifies mint
    ensures mint.fund == old(mint.fund)
    ensures CountTotal(cs) == 0 ==> ok && Minted(mint, [])
    ensures ok && CountTotal(cs) > 0 ==>
              Minted(mint, Allocations(cs, ShareOf(ByCount(CountTotal(cs)), reward), reward, 0))
  {
    var fees, counts := Totals(cs);
    if counts == 0 { return true; }
    ok := Allocate(mint, cs, ShareOf(ByCount(counts), reward), reward, refused);
  }

  /** Every pool that does not return early mints its reward to the coin. */
  lemma PoolsMintExactly(cs: seq<Claim>, reward: nat, p: RewardParams)
    requires Valid(p) && cs != [] && RoundingIsSmall(|cs|, reward)
    ensures var w := ByContribution(FeeTotal(cs), CountTotal(cs), p);
            GrantSum(Allocations(cs, ShareOf(w, reward), reward, 0)) == reward
    ensures CountTotal(cs) > 0 ==>
              var w := ByVerification(FeeTotal(cs), CountTotal(cs), p);
              GrantSum(Allocations(cs, ShareOf(w, reward), reward, 0)) == reward
    ensures CountTotal(cs) > 0 ==>
              GrantSum(Allocations(cs, ShareOf(ByCount(CountTotal(cs)), reward), reward, 0)) == reward
  {
    var fees, counts := FeeTotal(cs), CountTotal(cs);
    WeightsAddUp(cs, p);
    PoolSplitExact(cs, ByContribution(fees, counts, p), reward, p.feeWeight, p.countWeight);
    if counts > 0 {
      if fees > 0 { PoolSplitExact(cs, ByVerification(fees, counts, p), reward, p.feeWeight, p.countWeight); }
      else { PoolSplitExact(cs, ByVerification(fees, counts, p), reward, 0, ONE); }
      PoolSplitExact(cs, ByCount(counts), reward, 0, ONE);
    }
  }

  /** What each pool grants. Nothing is granted for verification without any. */
  ghost function WorkGrants(cs: seq<Claim>, reward: nat, p: RewardParams): seq<Grant> {
    Allocations(cs, ShareOf(ByContribution(FeeTotal(cs), CountTotal(cs), p), reward), reward, 0)
  }

  ghost function VerifierGrants(cs: seq<Claim>, reward: nat, p: RewardParams): seq<Grant> {
    if reward == 0 || CountTotal(cs) == 0 then []
    else Allocations(cs, ShareOf(ByVerification(FeeTotal(cs), CountTotal(cs), p), reward), reward, 0)
  }

  ghost function CountGrants(cs: seq<Claim>, reward: nat): seq<Grant> {
    if CountTotal(cs) == 0 then [] else Allocations(cs, ShareOf(ByCount(CountTotal(cs)), reward), reward, 0)
  }

  // ---------- One epoch ----------

  /** The two weighted pools leave something for the fund. */
  lemma PoolsFitReward(a: nat, b: nat, reward: nat)
    requires a + b <= ONE
    ensures Truncated(a, reward) + Truncated(b, reward) <= reward
    ensures Truncated(a, reward) <= reward && Truncated(b, reward) <= reward
  {
    MulMonotone(a + b, ONE, reward);
    Distribute(a, b, reward);
  }

  lemma SmallerIsSmall(n: nat, reward: nat, smaller: nat)
    requires RoundingIsSmall(n, reward) && smaller <= reward
    ensures RoundingIsSmall(n, smaller)
  {
    if n > 0 { MulMonotone(smaller, reward, 3 * (n - 1)); }
  }

  /** The epoch's reward for workers and verifiers; what is left over goes to the fund. */
  method DistributeInference(mint: Mint, reward: nat, work: seq<Claim>, verified: seq<Claim>, p: RewardParams,
                             refused: set<nat>)
    returns (ok: bool)
    requires Valid(p)
    modifies mint
    ensures ok && work != [] && RoundingIsSmall(|work|, reward) && RoundingIsSmall(|verified|, reward) ==>
              && mint.supply <= old(mint.supply) + reward
              && (CountTotal(verified) > 0 ==> mint.supply == old(mint.supply) + reward)
    ensures var forWork, forVerifiers := p.inference * reward / ONE, p.verification * reward / ONE;
            ok ==> && mint.fund == old(mint.fund) + reward - forWork - forVerifiers
                   && mint.grants == old(mint.grants) + WorkGrants(work, forWork, p)
                                     + VerifierGrants(verified, forVerifiers, p)
  {
    var forWork, forVerifiers := Truncated(p.inference, reward), Truncated(p.verification, reward);
    PoolsFitReward(p.inference, p.verification, reward);
    var forFund := reward - forWork - forVerifiers;
    if work != [] && RoundingIsSmall(|work|, reward) {
      SmallerIsSmall(|work|, reward, forWork);
      PoolsMintExactly(work, forWork, p);
    }
    if verified != [] && RoundingIsSmall(|verified|, reward) {
      SmallerIsSmall(|verified|, reward, forVerifiers);
      PoolsMintExactly(verified, forVerifiers, p);
    }
    ok := DistributeByContribution(mint, forWork, work, p, refused);
    if !ok { return; }
    if forVerifiers > 0 && verified != [] {
      ok := DistributeByVerification(mint, forVerifiers, verified, p, refused);
      if !ok { return; }
    }
    if forFund > 0 {
      mint.supply := mint.supply + forFund;
      mint.fund := mint.fund + forFund;
    }
  }

  /** Whom an epoch rewards: workers and verifiers if there was work, else the signers of blocks, else the
      stakes. */
  ghost function EpochGrants(reward: nat, work: seq<Claim>, verified: seq<Claim>, signers: seq<Claim>,
                             stakes: seq<Claim>, p: RewardParams): seq<Grant>
  {
    if reward == 0 then []
    else if work != [] then
      WorkGrants(work, p.inference * reward / ONE, p) + VerifierGrants(verified, p.verification * reward / ONE, p)
    else if signers != [] then CountGrants(signers, reward)
    else if stakes != [] then CountGrants(stakes, reward)
    else []
  }

  /** DistributeRewards at the end of an epoch: never more than the epoch's reward is minted. */
  method DistributeRewards(mint: Mint, height: nat, work: seq<Claim>, verified: seq<Claim>, signers: seq<Claim>,
                           stakes: seq<Claim>, p: RewardParams, refused: set<nat>)
    returns (ok: bool)
    requires Valid(p)
    modifies mint
    ensures var reward := Issuance.EpochReward(p.base, p.period, p.epochBlocks, height);
            ok && RoundingIsSmall(|work|, reward) && RoundingIsSmall(|verified|, reward)
               && RoundingIsSmall(|signers|, reward) && RoundingIsSmall(|stakes|, reward) ==>
              mint.supply <= old(mint.supply) + reward
    ensures var reward := Issuance.EpochReward(p.base, p.period, p.epochBlocks, height);
            ok ==> mint.grants == old(mint.grants) + EpochGrants(reward, work, verified, signers, stakes, p)
  {
    var reward := Issuance.CalculateEpochReward(p.base, p.period, p.epochBlocks, height);
    if reward == 0 { return true; }
    if |work| > 0 {
      ok := DistributeInference(mint, reward, work, verified, p, refused);
    } else if |signers| > 0 {
      if RoundingIsSmall(|signers|, reward) { PoolsMintExactly(signers, reward, p); }
      ok := DistributeByCount(mint, reward, signers, refused);
    } else if |stakes| > 0 {
      if RoundingIsSmall(|stakes|, reward) { PoolsMintExactly(stakes, reward, p); }
      ok := DistributeByCount(mint, reward, stakes, refused);
    } else {
      ok := true;
    }
  }

  // ---------- All epochs ----------

  /** Who claims what at the end of a block, and whom the bank refuses. */
  datatype Claims = Claims(work: seq<Claim>, verified: seq<Claim>, signers: seq<Claim>, stakes: seq<Claim>,
                           refused: set<nat>)

  /** At every epoch the rounding of the recipients is worth less than a coin. */
  ghost predicate FewEnough(cs: seq<Claims>, p: RewardParams)
    requires p.period > 0
  {
    forall h :: 0 <= h < |cs| ==> Few(cs[h], Issuance.EpochReward(p.base, p.period, p.epochBlocks, h + 1))
  }

  ghost predicate Few(c: Claims, reward: nat) {
    && RoundingIsSmall(|c.work|, reward) && RoundingIsSmall(|c.verified|, reward)
    && RoundingIsSmall(|c.signers|, reward) && RoundingIsSmall(|c.stakes|, reward)
  }

  /** EndBlock at heights 1, 2, ...: whatever is claimed, all that is ever minted stays within the cap. An
      error stops the chain. */
  method EndBlocks(mint: Mint, cs: seq<Claims>, p: RewardParams) returns (ok: bool)
    requires Valid(p) && FewEnough(cs, p)
    modifies mint
    ensures ok ==> mint.supply <= old(mint.supply) + Issuance.Fired(p.base, p.period, p.epochBlocks, |cs|)
    ensures ok ==> mint.supply <= old(mint.supply) + 2 * p.base * p.period
  {
    ok := true;
    for h := 0 to |cs|
      invariant mint.supply <= old(mint.supply) + Issuance.Fired(p.base, p.period, p.epochBlocks, h)
    {
      assert Few(cs[h], Issuance.EpochReward(p.base, p.period, p.epochBlocks, h + 1));
      if (h + 1) % p.epochBlocks == 0 {
        ok := DistributeRewards(mint, h + 1, cs[h].work, cs[h].verified, cs[h].signers, cs[h].stakes, p, cs[h].refused);
        if !ok { return; }
      }
    }
    Issuance.EpochsWithinCap(p.base, p.period, p.epochBlocks, |cs|);
  }
}
