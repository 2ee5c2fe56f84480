/** The expiry condition of the single-charge theorem is exact: cleanup goes by the settlement
    height, so a task that can still be batched once its record is gone is charged again
    (x/settlement/keeper/keeper.go:2463-2492). */
module Expiry {
  import opened Sums
  import opened FeeSplit
  import opened Ledger
  import opened Effects
  import opened Runs
  import opened Charges

  // ---------- Blocks in which nothing times out ----------

  const TICK := EndBlockStep([], [], {})

  function Ticks(n: nat): seq<Step> { seq(n, _ => TICK) }

  ghost predicate NoAudits(s: State) {
    s.second == Tier(map[], {}) && s.third == Tier(map[], {})
  }

  /** No audit times out up to this height. */
  ghost predicate NothingDue(s: State, height: int, p: Params) {
    && (forall k :: k in s.second.index ==> k.0 > height - p.secondTimeout)
    && (forall k :: k in s.third.index ==> k.0 > height - p.thirdTimeout)
  }

  lemma TickEffect(s: State, p: Params)
    requires NothingDue(s, s.height, p)
    ensures Enabled(s, TICK, p) && Apply(s, TICK, p) == Cleanup(s, p).(height := s.height + 1)
  {
    NothingSwept(Cleanup(s, p), false, p);
    NothingSwept(Cleanup(s, p), true, p);
  }

  /** Quiet blocks change the height and clean up old records, nothing else. */
  lemma {:induction false} TicksEffect(s: State, n: nat, p: Params)
    requires NothingDue(s, s.height + n - 1, p)
    ensures var s2 := Run(s, Ticks(n), p);
            && IsRun(s, Ticks(n), p)
            && s2 == s.(height := s.height + n, settled := s2.settled)
            && (forall t :: t in s2.settled ==> t in s.settled && s2.settled[t] == s.settled[t])
            && (n > 0 ==> forall t :: t in s2.settled ==> !CleanupDue(s.settled[t], s.height + n - 1, p))
    decreases n
  {
    if n > 0 {
      var s1 := Apply(s, TICK, p);
      TickEffect(s, p);
      assert Ticks(n)[0] == TICK && Ticks(n)[1..] == Ticks(n - 1);
      TicksEffect(s1, n - 1, p);
      if n == 1 { assert Ticks(0) == []; }
    }
  }

  // ---------- The run that charges twice ----------

  const USER := 1
  const WORKER := 2

  /** An ordinary successful entry with a fee of one coin. */
  function Plain(t: TaskId, expire: int): Entry {
    Entry(t, Bech32(USER), Bech32(WORKER), [], Coin(Ufai, 1), SUCCESS, expire,
          [1], [1], [[1], [1], [1]], 0, 0, Coin(Ufai, 0), 0, 0)
  }

  function Batch(t: TaskId, expire: int): Step { SettleStep(true, [EntryInput(Plain(t, expire), false, {})]) }

  /** A ledger with one funded user and no reservations or fraud marks. */
  ghost predicate Simple(s: State, n: nat) {
    && s.reserved == map[] && s.fraud == {} && s.bank.pool >= n
    && USER in s.accounts && s.accounts[USER].balance >= n
  }

  /** An entry not on record and not expired is charged, in a batch of its own. */
  lemma BatchCharges(s: State, t: TaskId, expire: int, n: nat, p: Params)
    requires Simple(s, n + 1) && t !in s.settled && !Expired(expire, s.height)
    ensures var s2 := Apply(s, Batch(t, expire), p);
            && Simple(s2, n) && Beside(s, s2)
            && Get(s2.hist.charges, t) == Get(s.hist.charges, t) + 1
            && t in s2.settled && s2.settled.Keys == s.settled.Keys + {t}
            && s2.settled[t] == Settled(TaskSettled, expire, s.height, Bech32(WORKER), [], 1, Bech32(USER))
            && s2.hist.firstAt == (if t in s.hist.firstAt then s.hist.firstAt else s.hist.firstAt[t := s.height])
  {
    var x, j := EntryInput(Plain(t, expire), false, {}), JobOf(Plain(t, expire));
    PlainPays(s, t, expire, n, p);
    PaySuccessEffect(s, j, 1, {}, p);
    PlainRow(s, t, expire, p);
    OneRow(s, x, PaySuccess(s, j, 1, {}, p).value, p);
  }

  lemma PlainRow(s: State, t: TaskId, expire: int, p: Params)
    requires s.reserved == map[] && s.fraud == {} && USER in s.accounts && t !in s.settled && !Expired(expire, s.height)
    ensures var j := JobOf(Plain(t, expire));
            && Payable(s, j)
            && (PaySuccess(s, j, 1, {}, p).Some? ==>
                  SettleEntry(s, EntryInput(Plain(t, expire), false, {}), p) == Go(PaySuccess(s, j, 1, {}, p).value))
  {
    assert SignaturesPresent(Plain(t, expire)) && !IsPerToken(Plain(t, expire)) && Unfreeze(s, USER, t) == s;
  }

  lemma PlainPays(s: State, t: TaskId, expire: int, n: nat, p: Params)
    requires Simple(s, n + 1)
    ensures var j := JobOf(Plain(t, expire));
            && Payable(s, j) && PaySuccess(s, j, 1, {}, p).Some?
            && Simple(PaySuccess(s, j, 1, {}, p).value, n)
  {
    var j := JobOf(Plain(t, expire));
    var ps := SuccessPayouts(1, WORKER, j.verifiers, p.ratios);
    SuccessSplitExact(1, WORKER, j.verifiers, p.ratios);
    PayAllSucceeds(s.bank, ps, {});
    PayAllConserves(s.bank, ps, {});
  }

  function WaitAndBatch(n: nat, t: TaskId, expire: int): seq<Step> { Ticks(n) + [Batch(t, expire)] }

  /** Wait `n` blocks and send the entry: it is charged if its record, if any, is gone by then. */
  lemma WaitAndBatchCharges(s: State, n: nat, t: TaskId, expire: int, k: nat, p: Params)
    requires Simple(s, k + 1) && NoAudits(s) && !Expired(expire, s.height + n)
    requires t !in s.settled || (n > 0 && CleanupDue(s.settled[t], s.height + n - 1, p))
    ensures var s2 := Run(s, WaitAndBatch(n, t, expire), p);
            && IsRun(s, WaitAndBatch(n, t, expire), p) && Simple(s2, k) && NoAudits(s2) && s2.height == s.height + n
            && Get(s2.hist.charges, t) == Get(s.hist.charges, t) + 1
            && t in s2.settled && s2.settled[t].expire == expire && s2.settled[t].settledAt == s2.height
            && s2.hist.firstAt == (if t in s.hist.firstAt then s.hist.firstAt else s.hist.firstAt[t := s2.height])
  {
    TicksEffect(s, n, p);
    var s1 := Run(s, Ticks(n), p);
    BatchCharges(s1, t, expire, k, p);
    RunOne(s1, Batch(t, expire), p);
    RunAppend(s, Ticks(n), [Batch(t, expire)], p);
  }

  /** Fund the user, wait until block `at`, settle, wait until the record is cleaned up, settle again. */
  function Recharge(t: TaskId, expire: int, at: nat, p: Params): seq<Step>
    requires at >= 1
  {
    [DepositStep(USER, Coin(Ufai, 2), false)]
    + (WaitAndBatch(at - 1, t, expire) + WaitAndBatch(p.cleanupBuffer + 2, t, expire))
  }

  /** A run that debits the task twice although its expiry is the same in every batch. */
  ghost predicate ChargedTwice(bank: Bank, steps: seq<Step>, expire: int, at: int, p: Params, t: TaskId) {
    var s := Run(Genesis(bank), steps, p);
    && IsRun(Genesis(bank), steps, p) && (forall i :: 0 <= i < |steps| ==> Fixed(steps[i], t, expire))
    && t in s.hist.firstAt && s.hist.firstAt[t] == at
    && Get(s.hist.charges, t) >= 2
  }

  lemma FundedStart(p: Params)
    ensures var g := Genesis(Bank(0, map[USER := 2]));
            var d := DepositStep(USER, Coin(Ufai, 2), false);
            var s := Run(g, [d], p);
            && IsRun(g, [d], p) && Simple(s, 2) && NoAudits(s) && s.hist == NOTHING && s.settled == map[]
            && s.height == 1 && s.audits == map[]
  {
    RunOne(Genesis(Bank(0, map[USER := 2])), DepositStep(USER, Coin(Ufai, 2), false), p);
  }

  lemma WaitAndBatchFixed(n: nat, t: TaskId, expire: int)
    ensures forall i :: 0 <= i < |WaitAndBatch(n, t, expire)| ==> Fixed(WaitAndBatch(n, t, expire)[i], t, expire)
  {
    var steps := WaitAndBatch(n, t, expire);
    forall i | 0 <= i < |steps| ensures Fixed(steps[i], t, expire) {
      if i < n { assert steps[i] == TICK; } else { assert steps[i] == Batch(t, expire); }
    }
  }

  lemma RechargeFixed(t: TaskId, expire: int, at: nat, p: Params)
    requires at >= 1
    ensures var steps := Recharge(t, expire, at, p); forall i :: 0 <= i < |steps| ==> Fixed(steps[i], t, expire)
  {
    WaitAndBatchFixed(at - 1, t, expire);
    WaitAndBatchFixed(p.cleanupBuffer + 2, t, expire);
  }

  /** The record is gone by then. */
  lemma ChargedAgain(s: State, t: TaskId, expire: int, at: nat, p: Params)
    requires at >= 1 && !SafeExpiry(expire, at, p) && Simple(s, 1) && NoAudits(s) && s.height == at
    requires t in s.settled && s.settled[t].expire == expire && s.settled[t].settledAt == at && t in s.hist.firstAt
    ensures var steps := WaitAndBatch(p.cleanupBuffer + 2, t, expire);
            var s2 := Run(s, steps, p);
            && IsRun(s, steps, p) && Get(s2.hist.charges, t) == Get(s.hist.charges, t) + 1
            && s2.hist.firstAt == s.hist.firstAt
  {
    WaitAndBatchCharges(s, p.cleanupBuffer + 2, t, expire, 0, p);
  }

  /** Settled at block `at`, cleaned up, settled again. */
  lemma SettledTwice(s: State, t: TaskId, expire: int, at: nat, p: Params)
    requires at >= 1 && !SafeExpiry(expire, at, p)
    requires Simple(s, 2) && NoAudits(s) && s.hist == NOTHING && s.settled == map[] && s.height == 1
    ensures var steps := WaitAndBatch(at - 1, t, expire) + WaitAndBatch(p.cleanupBuffer + 2, t, expire);
            var s2 := Run(s, steps, p);
            && IsRun(s, steps, p) && Get(s2.hist.charges, t) == 2
            && t in s2.hist.firstAt && s2.hist.firstAt[t] == at
  {
    var a, b := WaitAndBatch(at - 1, t, expire), WaitAndBatch(p.cleanupBuffer + 2, t, expire);
    WaitAndBatchCharges(s, at - 1, t, expire, 1, p);
    ChargedAgain(Run(s, a, p), t, expire, at, p);
    RunAppend(s, a, b, p);
  }

  /** An unsafe task, alone, charged at block `at` and again once its record is gone. */
  lemma RechargeRun(t: TaskId, expire: int, at: nat, p: Params)
    requires at >= 1 && !SafeExpiry(expire, at, p)
    ensures ChargedTwice(Bank(0, map[USER := 2]), Recharge(t, expire, at, p), expire, at, p, t)
  {
    var g, d := Genesis(Bank(0, map[USER := 2])), [DepositStep(USER, Coin(Ufai, 2), false)];
    FundedStart(p);
    SettledTwice(Run(g, d, p), t, expire, at, p);
    RunAppend(g, d, WaitAndBatch(at - 1, t, expire) + WaitAndBatch(p.cleanupBuffer + 2, t, expire), p);
    RechargeFixed(t, expire, at, p);
  }

  /** A task first recorded at block `at` can be charged twice exactly when its expiry is not safe. */
  lemma ExpiryIsExact(t: TaskId, expire: int, at: nat, p: Params)
    requires at >= 1
    ensures (exists bank, steps :: ChargedTwice(bank, steps, expire, at, p, t)) <==> !SafeExpiry(expire, at, p)
  {
    if !SafeExpiry(expire, at, p) {
      RechargeRun(t, expire, at, p);
    } else {
      forall bank, steps ensures !ChargedTwice(bank, steps, expire, at, p, t) {
        if ChargedTwice(bank, steps, expire, at, p, t) { SingleCharge(bank, steps, p, t, expire); }
      }
    }
  }
}
