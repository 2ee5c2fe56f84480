/** Solvency and conservation over whole runs, and the exact condition on fees they depend on. */
module Solvency {
  import opened Sums
  import opened FeeSplit
  import opened Ledger
  import opened Runs
  import opened Books

  /** Fees are not negative, and coin movements outside the ledger do not drain its module account. */
  ghost predicate SoundRun(s: State, steps: seq<Step>, p: Params)
    decreases |steps|
  {
    steps == [] ||
    (&& FairStep(steps[0]) && (steps[0].BankStep? ==> steps[0].bank.pool >= s.bank.pool)
     && SoundRun(Apply(s, steps[0], p), steps[1..], p))
  }

  /** Over any mix of deposits, withdrawals, reservations, batches, audits, timeouts and fraud
      proofs, including payouts that fail partway, module balance minus user balances never falls. */
  lemma {:induction false} SurplusNeverFalls(s: State, steps: seq<Step>, p: Params)
    requires SoundRun(s, steps, p) && Fair(s)
    ensures Surplus(Run(s, steps, p)) >= Surplus(s) && Fair(Run(s, steps, p))
    decreases |steps|
  {
    if steps != [] {
      var s1 := Apply(s, steps[0], p);
      if steps[0].BankStep? { assert Balances(s1) == Balances(s); } else { StepBooks(s, steps[0], p); }
      SurplusNeverFalls(s1, steps[1..], p);
    }
  }

  /** A deposit moves its amount from the wallet to the pool and the balance, or nothing happens. */
  lemma DepositReaches(s: State, who: nat, coin: Coin, refused: bool)
    ensures var s2 := Deposit(s, who, coin, refused);
            if coin.denom == Ufai && 0 <= coin.amount <= Get(s.bank.wallets, who) && !refused then
              && who in s2.accounts && s2.bank.pool == s.bank.pool + coin.amount
              && s2.accounts[who].balance == (if who in s.accounts then s.accounts[who].balance else 0) + coin.amount
              && s2.accounts[who].frozen == (if who in s.accounts then s.accounts[who].frozen else 0)
              && Get(s2.bank.wallets, who) == Get(s.bank.wallets, who) - coin.amount
              && (forall a :: a != who ==> Get(s2.bank.wallets, a) == Get(s.bank.wallets, a))
              && (forall a :: a != who ==> (a in s2.accounts <==> a in s.accounts))
              && (forall a :: a != who && a in s.accounts ==> s2.accounts[a] == s.accounts[a])
            else s2 == s
  {
  }

  /** Whoever deposits and withdraws the same is where they were. */
  lemma DepositThenWithdraw(s: State, who: nat, amount: nat)
    requires amount <= Get(s.bank.wallets, who)
    requires who in s.accounts ==> s.accounts[who].frozen <= s.accounts[who].balance
    ensures var s2 := Withdraw(Deposit(s, who, Coin(Ufai, amount), false), who, Coin(Ufai, amount), {});
            && s2.bank.pool == s.bank.pool && (forall a :: Get(s2.bank.wallets, a) == Get(s.bank.wallets, a))
            && who in s2.accounts
            && s2.accounts[who].balance == if who in s.accounts then s.accounts[who].balance else 0
  {
    DepositReaches(s, who, Coin(Ufai, amount), false);
  }

  /** In a solvent ledger every allowed withdrawal is paid, unless the bank refuses the recipient. */
  lemma WithdrawalIsPaid(s: State, who: nat, amount: nat, refused: set<nat>)
    requires Surplus(s) >= 0 && who in s.accounts && amount <= Available(s.accounts[who]) && who !in refused
    ensures var s2 := Withdraw(s, who, Coin(Ufai, amount), refused);
            && s2.accounts[who].balance == s.accounts[who].balance - amount
            && Get(s2.bank.wallets, who) == Get(s.bank.wallets, who) + amount
  {
    TotalAtLeast(Balances(s), who);
  }

  lemma EveryWithdrawalIsPaid(bank: Bank, steps: seq<Step>, p: Params, who: nat, amount: nat, refused: set<nat>)
    requires SoundRun(Genesis(bank), steps, p)
    requires var s := Run(Genesis(bank), steps, p); who in s.accounts && amount <= Available(s.accounts[who])
    requires who !in refused
    ensures var s := Run(Genesis(bank), steps, p);
            var s2 := Withdraw(s, who, Coin(Ufai, amount), refused);
            && s2.accounts[who].balance == s.accounts[who].balance - amount
            && Get(s2.bank.wallets, who) == Get(s.bank.wallets, who) + amount
  {
    assert Balances(Genesis(bank)) == map[];
    SurplusNeverFalls(Genesis(bank), steps, p);
    WithdrawalIsPaid(Run(Genesis(bank), steps, p), who, amount, refused);
  }

  /** The ledger neither mints nor burns coins. */
  lemma {:induction false} CoinsAreConserved(s: State, steps: seq<Step>, p: Params)
    requires forall i :: 0 <= i < |steps| ==> !steps[i].BankStep?
    ensures Money(Run(s, steps, p).bank) == Money(s.bank)
    decreases |steps|
  {
    if steps != [] {
      StepBooks(s, steps[0], p);
      CoinsAreConserved(Apply(s, steps[0], p), steps[1..], p);
    }
  }

  // ---------- The condition on fees is exact ----------

  /** A successful settlement adds the fund share of what was paid to the surplus, or takes the
      amount credited out of it: it keeps solvency exactly when the fee is not negative. */
  lemma SuccessSurplusExact(s: State, j: Job, fee: int, refused: set<nat>, p: Params)
    requires Payable(s, j) && PaySuccess(s, j, fee, refused, p).Some?
    ensures var s2 := PaySuccess(s, j, fee, refused, p).value;
            var paid := Min(fee, Balance(s, j));
            && Surplus(s2) == Surplus(s) + (if paid > 0 then PerMille(paid, p.ratios.fund) else paid)
            && (Surplus(s2) >= Surplus(s) <==> fee >= 0)
  {
    var paid := Min(fee, Balance(s, j));
    if paid <= 0 {
      ChargeSurplus(s, j, fee, paid, [], 0, TaskSettled, refused);
    } else {
      SuccessSplitExact(paid, j.worker.account, j.verifiers, p.ratios);
      ChargeSurplus(s, j, fee, paid, SuccessPayouts(paid, j.worker.account, j.verifiers, p.ratios),
                    WorkerShare(paid, j.verifiers, p.ratios), TaskSettled, refused);
    }
  }

  /** A row that is charged at once, as a success, with a negative fee. */
  predicate CreditsUser(s: State, x: EntryInput, p: Params) {
    && SettledNow(s, x, p) && x.entry.status == SUCCESS
    && ActualFee(x.entry, p).Some? && ActualFee(x.entry, p).value < 0
  }

  /** One batch row lowers the surplus in exactly that case. */
  lemma RowSurplusExact(s: State, x: EntryInput, p: Params)
    requires SettleEntry(s, x, p).Go?
    ensures Surplus(SettleEntry(s, x, p).state) < Surplus(s) <==> CreditsUser(s, x, p)
  {
    var e, s2 := x.entry, SettleEntry(s, x, p).state;
    if !Skipped(s, e) && !ForcedAudit(e, p) && !x.audit {
      var fee := ActualFee(e, p).value;
      var s1 := Unfreeze(s, e.user.account, e.task);
      if e.task in s.reserved { AccountChange(s, s1, e.user.account); }
      if e.status == SUCCESS {
        if PaySuccess(s1, JobOf(e), fee, x.refused, p).Some? { SuccessSurplusExact(s1, JobOf(e), fee, x.refused, p); }
      } else {
        FailSurplus(s1, JobOf(e), FailFee(fee, p).value, x.refused, p);
      }
    } else if !Skipped(s, e) {
      assert Balances(s2) == Balances(s);
    }
  }

  lemma FailSurplus(s: State, j: Job, failFee: nat, refused: set<nat>, p: Params)
    requires Payable(s, j)
    ensures PayFail(s, j, failFee, refused, p).Some? ==>
              Surplus(PayFail(s, j, failFee, refused, p).value) >= Surplus(s)
    ensures Surplus(PayFailPerToken(s, j, failFee, refused, p)) >= Surplus(s)
  {
    PayFailPerTokenBooks(s, j, failFee, refused, p);
    if PayFail(s, j, failFee, refused, p).Some? { PayFailBooks(s, j, failFee, refused, p); }
  }

  /** An audited task that is settled as a success with a negative fee. */
  predicate CreditsAudited(s: State, apt: Pending, asSuccess: bool) {
    && apt.task !in s.fraud && Payable(s, AuditJob(apt)) && asSuccess
    && BaseFee(apt, 0).Some? && BaseFee(apt, 0).value < 0
  }

  /** One audited settlement lowers the surplus in exactly that case. */
  lemma AuditedSurplusExact(s: State, apt: Pending, asSuccess: bool, override: Tokens.uint32, refused: set<nat>,
                            p: Params)
    requires SettleAudited(s, apt, asSuccess, override, refused, p).Done?
    requires asSuccess ==> override == 0
    ensures Surplus(SettleAudited(s, apt, asSuccess, override, refused, p).state) < Surplus(s) <==>
            CreditsAudited(s, apt, asSuccess)
  {
    if apt.task !in s.fraud && Payable(s, AuditJob(apt)) {
      var j, base := AuditJob(apt), BaseFee(apt, override).value;
      var s1 := Unfreeze(s, apt.user.account, apt.task);
      if apt.task in s.reserved { AccountChange(s, s1, apt.user.account); }
      if asSuccess {
        if PaySuccess(s1, j, base, refused, p).Some? { SuccessSurplusExact(s1, j, base, refused, p); }
      } else {
        FailSurplus(s1, j, FailFee(base, p).value, refused, p);
      }
    }
  }

  /** Records and tiers do not enter the surplus. */
  lemma SameSurplus(s: State, s2: State)
    requires s2.accounts == s.accounts && s2.bank == s.bank
    ensures Surplus(s2) == Surplus(s)
  {
    assert Balances(s2) == Balances(s);
  }

  /** A judgment lowers the surplus exactly when the audit passes a task with a negative fee. */
  lemma JudgeSurplusExact(s: State, apt: Pending, ar: AuditRecord, escalate: bool, refused: set<nat>, p: Params)
    requires Judge(s, apt, ar, escalate, refused, p).Go?
    ensures Surplus(Judge(s, apt, ar, escalate, refused, p).state) < Surplus(s) <==>
            && !apt.third && !escalate && !TokenFraud(apt, ar, p)
            && CreditsAudited(s, apt, AuditPass(ar, p) && (apt.status == SUCCESS || apt.status == FAIL))
  {
    var s1, s2 := CountJudgment(s, apt.task), Judge(s, apt, ar, escalate, refused, p).state;
    SameSurplus(s, s1);
    if apt.third || escalate || (!TokenFraud(apt, ar, p) && apt.status == SUCCESS && !AuditPass(ar, p)) {
      SameSurplus(s1, s2);
    } else if TokenFraud(apt, ar, p) {
      var s3 := if apt.user.Bech32? then Unfreeze(s1, apt.user.account, apt.task) else s1;
      if s3 != s1 { AccountChange(s1, s3, apt.user.account); }
      SameSurplus(s3, Overturn(s3, apt));
      AuditedSurplusExact(Overturn(s3, apt), apt, false, Tokens.Median(ar.outTokens), refused, p);
    } else {
      var asSuccess := AuditPass(ar, p) && (apt.status == SUCCESS || apt.status == FAIL);
      AuditedSurplusExact(s1, apt, asSuccess, 0, refused, p);
      SameSurplus(SettleAudited(s1, apt, asSuccess, 0, refused, p).state, s2);
    }
  }

  /** A timeout does so exactly when it settles such a task as a success. */
  lemma TimeoutSurplusExact(s: State, apt: Pending, key: TimeoutKey, third: bool, refused: set<nat>, p: Params)
    requires Finish(s, apt, key, third, refused, p).Go?
    ensures Surplus(Finish(s, apt, key, third, refused, p).state) < Surplus(s) <==>
            CreditsAudited(s, apt, TimeoutSuccess(s, apt, third, p))
  {
    AuditedSurplusExact(s, apt, TimeoutSuccess(s, apt, third, p), 0, refused, p);
    var v := SettleAudited(s, apt, TimeoutSuccess(s, apt, third, p), 0, refused, p);
    SameSurplus(v.state, Finish(s, apt, key, third, refused, p).state);
  }

  /** An entry with a negative fee that passes every check the batch makes. */
  function NegativeEntry(): Entry {
    Entry([1], Bech32(1), Bech32(2), [], Coin(Ufai, -5), SUCCESS, 0,
          [1], [1], [[1], [1], [1]], 0, 0, Coin(Ufai, 0), 0, 0)
  }

  lemma NegativeEntryIsAccepted(s: State)
    requires s.settled == map[] && s.fraud == {} && 1 in s.accounts
    ensures !Skipped(s, NegativeEntry())
  {
    assert SignaturesPresent(NegativeEntry()) && !IsPerToken(NegativeEntry());
  }

  const OPEN := DepositStep(1, Coin(Ufai, 1), false)
  function NegativeBatch(): Step { SettleStep(true, [EntryInput(NegativeEntry(), false, {})]) }

  /** One coin is deposited. */
  lemma Opened(p: Params)
    ensures var s := Apply(Genesis(Bank(0, map[1 := 1])), OPEN, p);
            && s.settled == map[] && s.fraud == {} && s.reserved == map[]
            && s.accounts == map[1 := Account(1, 0, false)] && s.bank.pool == 1
  {
  }

  lemma NothingOwed(p: Params)
    ensures Surplus(Apply(Genesis(Bank(0, map[1 := 1])), OPEN, p)) == 0
  {
    var g := Genesis(Bank(0, map[1 := 1]));
    assert Balances(g) == map[];
    DepositSurplus(g, 1, Coin(Ufai, 1), false);
  }

  lemma NegativeRow(s: State, p: Params)
    requires s.settled == map[] && s.fraud == {} && s.reserved == map[] && 1 in s.accounts
    ensures var j := JobOf(NegativeEntry());
            && Payable(s, j) && PaySuccess(s, j, -5, {}, p).Some?
            && SettleEntry(s, EntryInput(NegativeEntry(), false, {}), p) == Go(PaySuccess(s, j, -5, {}, p).value)
  {
    NegativeEntryIsAccepted(s);
    assert !IsPerToken(NegativeEntry()) && Unfreeze(s, 1, [1]) == s;
  }

  /** The batch then credits five coins nobody paid in. */
  lemma Credited(s: State, p: Params)
    requires s.settled == map[] && s.fraud == {} && s.reserved == map[]
    requires s.accounts == map[1 := Account(1, 0, false)] && s.bank.pool == 1
    ensures var s2 := Apply(s, NegativeBatch(), p);
            && Surplus(s2) == Surplus(s) - 5 && s2.accounts == map[1 := Account(6, 0, false)] && s2.bank.pool == 1
  {
    var j := JobOf(NegativeEntry());
    NegativeRow(s, p);
    SuccessSurplusExact(s, j, -5, {}, p);
    OneRow(s, EntryInput(NegativeEntry(), false, {}), PaySuccess(s, j, -5, {}, p).value, p);
  }

  /** Concretely, from genesis: a coin is deposited, one such row is batched, and the six coins the user
      may withdraw are not there. */
  lemma NegativeFeeBreaksSolvency(p: Params)
    ensures var g, steps := Genesis(Bank(0, map[1 := 1])), [OPEN] + [NegativeBatch()];
            var s := Run(g, steps, p);
            && IsRun(g, steps, p) && Surplus(s) == -5
            && 1 in s.accounts && Available(s.accounts[1]) == 6 && Withdraw(s, 1, Coin(Ufai, 6), {}) == s
  {
    var g := Genesis(Bank(0, map[1 := 1]));
    var s := Apply(g, OPEN, p);
    Opened(p);
    NothingOwed(p);
    Credited(s, p);
    RunOne(s, NegativeBatch(), p);
    RunCons(g, OPEN, [NegativeBatch()], p);
  }
}
