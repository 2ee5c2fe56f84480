/** The settlement keeper as it runs: loops over batch rows, verifiers, results and timeout keys that
    write a store step by step, with payouts inside a cached context. Every method is proved equal
    to the function of the same operation in Ledger (x/settlement/keeper/keeper.go). */
module Keeper {
  import opened Sums
  import opened FeeSplit
  import opened Tokens
  import opened Ledger

  /** sdk.Context, reduced to the store behind it. */
  class Context {
    var store: State

    constructor (s: State)
      ensures store == s
    {
      store := s;
    }

    /** A scratch copy; writing it back is an assignment to `store`. */
    method CacheContext() returns (cache: Context)
      ensures fresh(cache) && cache.store == store
    {
      cache := new Context(store);
    }
  }

  /** How a method that may panic ends. */
  ghost predicate Ends(f: Flow, panicked: bool, after: State) {
    panicked == f.Panicked? && (f.Go? ==> after == f.state)
  }

  // ---------- Accounts and reservations ----------

  method ProcessDeposit(ctx: Context, who: nat, coin: Coin, refused: bool) returns (ok: bool)
    modifies ctx
    ensures ctx.store == Deposit(old(ctx.store), who, coin, refused)
    ensures !ok ==> ctx.store == old(ctx.store)
  {
    if coin.denom != Ufai || coin.amount < 0 { return false; }
    var s := ctx.store;
    if refused || Get(s.bank.wallets, who) < coin.amount { return false; }
    var wallets := s.bank.wallets[who := Get(s.bank.wallets, who) - coin.amount];
    ctx.store := ctx.store.(bank := Bank(s.bank.pool + coin.amount, wallets));
    var account;
    if who in s.accounts {
      account := s.accounts[who].(balance := s.accounts[who].balance + coin.amount);
    } else {
      account := Account(coin.amount, 0, false);
    }
    ctx.store := ctx.store.(accounts := ctx.store.accounts[who := account]);
    return true;
  }

  /** An error after the debit rolls the whole message back. */
  method ProcessWithdraw(ctx: Context, who: nat, coin: Coin, refused: set<nat>) returns (ok: bool)
    modifies ctx
    ensures ctx.store == Withdraw(old(ctx.store), who, coin, refused)
    ensures !ok ==> ctx.store == old(ctx.store)
  {
    if coin.denom != Ufai || coin.amount < 0 || who !in ctx.store.accounts { return false; }
    var account := ctx.store.accounts[who];
    if Available(account) < coin.amount { return false; }
    var cache := ctx.CacheContext();
    var debited := account.(balance := account.balance - coin.amount);
    cache.store := cache.store.(accounts := cache.store.accounts[who := debited]);
    ok := SendCoins(cache, who, coin.amount, refused);
    if ok { ctx.store := cache.store; }
  }

  /** SendCoinsFromModuleToAccount. */
  method SendCoins(ctx: Context, to: nat, amount: nat, refused: set<nat>) returns (ok: bool)
    modifies ctx
    ensures ok <==> Send(old(ctx.store).bank, Payout(to, amount), refused).Some?
    ensures var sent := Send(old(ctx.store).bank, Payout(to, amount), refused);
            ctx.store == if ok then old(ctx.store).(bank := sent.value)
                         else old(ctx.store)
  {
    var b := ctx.store.bank;
    ok := to !in refused && amount <= b.pool;
    if ok {
      ctx.store := ctx.store.(bank := Bank(b.pool - amount, b.wallets[to := Get(b.wallets, to) + amount]));
    }
  }

  method UnfreezeBalance(ctx: Context, user: nat, t: TaskId) returns (panicked: bool)
    modifies ctx
    ensures panicked == UnfreezePanics(old(ctx.store), user, t)
    ensures !panicked ==> ctx.store == Unfreeze(old(ctx.store), user, t)
  {
    var s := ctx.store;
    if t !in s.reserved || user !in s.accounts { return false; }
    var account, amount := s.accounts[user], s.reserved[t];
    if !account.frozenSet { return true; }
    var clamped := account.frozen < amount;
    account := account.(frozen := if clamped then 0 else account.frozen - amount);
    ctx.store := ctx.store.(accounts := ctx.store.accounts[user := account]);
    ctx.store := ctx.store.(reserved := ctx.store.reserved - {t});
    var h := s.hist;
    ctx.store := ctx.store.(hist := h.(owner := h.owner - {t},
                                       owned := h.owned && t in h.owner && h.owner[t] == user,
                                       clamps := h.clamps + if clamped then 1 else 0));
    return false;
  }

  /** FreezeBalance, which reports an insufficient available balance. */
  method FreezeBalance(ctx: Context, user: nat, t: TaskId, amount: nat) returns (ok: bool, panicked: bool)
    requires user in ctx.store.accounts
    modifies ctx
    ensures ok || panicked <==> amount <= Available(old(ctx.store).accounts[user])
    ensures panicked <==> amount <= Available(old(ctx.store).accounts[user]) && amount >= TWO_64
    ensures ctx.store == if ok then Freeze(old(ctx.store), user, t, amount) else old(ctx.store)
    ensures !(ok && panicked)
  {
    var account := ctx.store.accounts[user];
    if Available(account) < amount { return false, false; }
    if amount >= TWO_64 { return false, true; }
    account := account.(frozen := account.frozen + amount, frozenSet := true);
    ctx.store := ctx.store.(accounts := ctx.store.accounts[user := account]);
    ctx.store := ctx.store.(reserved := ctx.store.reserved[t := amount],
                            hist := ctx.store.hist.(owner := ctx.store.hist.owner[t := user]));
    return true, false;
  }

  /** The rows of a reservation batch with a valid header, and how many were accepted. */
  method ProcessBatchReserve(ctx: Context, entries: seq<ReserveEntry>) returns (accepted: nat, panicked: bool)
    modifies ctx
    ensures Ends(ReserveAll(old(ctx.store), entries), panicked, ctx.store)
    ensures !panicked ==> |ctx.store.reserved| == |old(ctx.store).reserved| + accepted
  {
    accepted, panicked := 0, false;
    for i := 0 to |entries|
      invariant ReserveAll(old(ctx.store), entries) == ReserveAll(ctx.store, entries[i..])
      invariant |ctx.store.reserved| == |old(ctx.store).reserved| + accepted
    {
      var e := entries[i];
      assert entries[i..][1..] == entries[i + 1..];
      if e.maxFee.amount <= 0 || e.maxFee.denom != Ufai || e.task == [] { continue; }
      if e.expire > 0 && e.expire < ctx.store.height { continue; }
      if e.task in ctx.store.settled || e.task in ctx.store.reserved { continue; }
      if !e.user.Bech32? || e.user.account !in ctx.store.accounts { continue; }
      var ok, fatal := FreezeBalance(ctx, e.user.account, e.task, e.maxFee.amount);
      if fatal { return accepted, true; }
      if ok { accepted := accepted + 1; }
    }
  }

  // ---------- Distributing fees ----------

  /** Pay each decodable address `per` and the last one the rest of `total`. Stops at a failed send. */
  method PayShares(ctx: Context, us: seq<Address>, per: nat, total: nat, refused: set<nat>)
    returns (ok: bool, distributed: nat)
    requires per * |us| <= total
    modifies ctx
    ensures var paid := PayAll(old(ctx.store).bank, Shares(us, per, total, 0), refused);
            ok == paid.Some? && (ok ==> ctx.store == old(ctx.store).(bank := paid.value))
    ensures ok ==> distributed == Sum(Shares(us, per, total, 0))
  {
    distributed := 0;
    assert us[0..] == us;
    for i := 0 to |us|
      invariant distributed + per * |us[i..]| <= total
      invariant ctx.store == old(ctx.store).(bank := ctx.store.bank)
      invariant PayAll(old(ctx.store).bank, Shares(us, per, total, 0), refused)
             == PayAll(ctx.store.bank, Shares(us[i..], per, total, distributed), refused)
      invariant Sum(Shares(us, per, total, 0)) == distributed + Sum(Shares(us[i..], per, total, distributed))
    {
      ghost var left := us[i..];
      assert left[0] == us[i] && left[1..] == us[i + 1..];
      if !us[i].Bech32? {
        SkipShare(left, per, total, distributed);
        continue;
      }
      NextShare(left, per, total, distributed, ctx.store.bank, refused);
      var amount := if i == |us| - 1 then total - distributed else per;
      if amount > 0 {
        var sent := SendCoins(ctx, us[i].account, amount, refused);
        if !sent { return false, distributed; }
      }
      distributed := distributed + amount;
    }
    return true, distributed;
  }

  /** Split `total` evenly between the unique verifiers. */
  method PayVerifiers(ctx: Context, total: nat, verifiers: seq<Address>, refused: set<nat>)
    returns (ok: bool, distributed: nat)
    modifies ctx
    ensures var paid := PayAll(old(ctx.store).bank, VerifierPayouts(total, verifiers), refused);
            ok == paid.Some? && (ok ==> ctx.store == old(ctx.store).(bank := paid.value))
    ensures ok ==> distributed == Sum(VerifierPayouts(total, verifiers)) <= total
  {
    VerifierPayoutsSum(total, verifiers);
    var us := DedupVerifierResults(verifiers);
    if us == [] { return true, 0; }
    DivideThenMultiply(total, |us|);
    ok, distributed := PayShares(ctx, us, total / |us|, total, refused);
  }

  method DistributeSuccessFee(ctx: Context, fee: nat, worker: nat, verifiers: seq<Address>, refused: set<nat>,
                              p: Params)
    returns (ok: bool, executor: nat)
    modifies ctx
    ensures ok <==> PayAll(old(ctx.store).bank, SuccessPayouts(fee, worker, verifiers, p.ratios), refused).Some?
    ensures var ps := SuccessPayouts(fee, worker, verifiers, p.ratios);
            ok ==> ctx.store == old(ctx.store).(bank := PayAll(old(ctx.store).bank, ps, refused).value)
    ensures ok ==> executor == WorkerShare(fee, verifiers, p.ratios)
  {
    var verifierAmount, fundAmount := PerMille(fee, p.ratios.verifier), PerMille(fee, p.ratios.fund);
    PoolsFit(fee, p.ratios.verifier, p.ratios.fund);
    ghost var share := WorkerShare(fee, verifiers, p.ratios);
    ghost var last := if share > 0 then [Payout(worker, share)] else [];
    PayAllAppend(ctx.store.bank, VerifierPayouts(verifierAmount, verifiers), last, refused);
    var distributed;
    ok, distributed := PayVerifiers(ctx, verifierAmount, verifiers, refused);
    executor := 0;
    if !ok { return; }
    executor := fee - distributed - fundAmount;
    if executor > 0 {
      assert last[1..] == [];
      ok := SendCoins(ctx, worker, executor, refused);
    }
  }

  method DistributeFailFee(ctx: Context, fee: nat, verifiers: seq<Address>, refused: set<nat>, p: Params)
    returns (ok: bool)
    modifies ctx
    ensures ok <==> PayAll(old(ctx.store).bank, FailPayouts(fee, verifiers, p.ratios), refused).Some?
    ensures var ps := FailPayouts(fee, verifiers, p.ratios);
            ok ==> ctx.store == old(ctx.store).(bank := PayAll(old(ctx.store).bank, ps, refused).value)
  {
    var distributed;
    ok, distributed := PayVerifiers(ctx, FailPool(fee, p.ratios), verifiers, refused);
  }

  // ---------- Batch settlement ----------

  /** The checks a row has to pass. */
  method Accepts(ctx: Context, e: Entry) returns (ok: bool)
    ensures ok <==> !Skipped(ctx.store, e)
  {
    if IsPerToken(e) {
      if e.maxFee.denom != Ufai { return false; }
    } else if e.fee.denom != Ufai {
      return false;
    }
    if e.task in ctx.store.settled || e.task in ctx.store.fraud { return false; }
    if e.expire > 0 && e.expire < ctx.store.height { return false; }
    if |e.userSig| == 0 || |e.workerSig| == 0 || |e.verifySigs| < 3 { return false; }
    for i := 0 to |e.verifySigs|
      invariant forall k :: 0 <= k < i ==> e.verifySigs[k] != []
    {
      if |e.verifySigs[i]| == 0 { return false; }
    }
    if !e.user.Bech32? || !e.worker.Bech32? { return false; }
    return e.user.account in ctx.store.accounts;
  }

  method VerifierAddresses(results: seq<VerifierResult>) returns (addresses: seq<Address>)
    ensures addresses == Addresses(results)
  {
    addresses := [];
    for i := 0 to |results|
      invariant |addresses| == i && forall k :: 0 <= k < i ==> addresses[k] == results[k].address
    {
      addresses := addresses + [results[i].address];
    }
  }

  /** No verifier counted output tokens although the worker did. */
  method ForcesAudit(e: Entry, p: Params) returns (force: bool)
    ensures force == ForcedAudit(e, p)
  {
    if !IsPerToken(e) || !p.perTokenEnabled { return false; }
    var hasVerifierTokenData := false;
    for i := 0 to |e.verifiers|
      invariant !hasVerifierTokenData
      invariant forall k :: 0 <= k < i ==> e.verifiers[k].outTokens == 0
    {
      if e.verifiers[i].outTokens > 0 {
        hasVerifierTokenData := true;
        break;
      }
    }
    return !hasVerifierTokenData && e.workerOut > 0;
  }

  /** The fee by billing mode; None is the panic of reading an oversized MaxFee. */
  method ResolveFee(e: Entry, p: Params) returns (fee: Option<int>)
    ensures fee == ActualFee(e, p)
  {
    if IsPerToken(e) && !p.perTokenEnabled { return Some(e.maxFee.amount); }
    if !IsPerToken(e) { return Some(e.fee.amount); }
    var outCount, outDishonest := ResolveTokenCounts(e.workerOut, OutReports(e.verifiers), p.tolerance, p.tolerancePct);
    var inCount, inDishonest := ResolveTokenCounts(e.workerIn, InReports(e.verifiers), p.tolerance, p.tolerancePct);
    if !(0 <= e.maxFee.amount < TWO_64) { return None; }
    return Some(CalculatePerTokenFee(inCount, outCount, e.feeIn, e.feeOut, e.maxFee.amount));
  }

  method SetSettledTask(ctx: Context, j: Job, status: TaskStatus, fee: int)
    modifies ctx
    ensures ctx.store == Record(old(ctx.store), j, status, fee)
  {
    var s := ctx.store;
    var record := Settled(status, j.expire, s.height, j.worker, j.verifiers, fee, j.user);
    ctx.store := s.(settled := s.settled[j.task := record]);
    if j.task !in s.hist.firstAt {
      ctx.store := ctx.store.(hist := s.hist.(firstAt := s.hist.firstAt[j.task := s.height]));
    }
  }

  /** SetSecondVerificationPending: the tier flag picks the prefix. */
  method SetSecondVerificationPending(ctx: Context, apt: Pending)
    modifies ctx
    ensures ctx.store == WithTier(old(ctx.store), apt.third, Put(TierOf(old(ctx.store), apt.third), apt))
  {
    var key := (apt.submittedAt, apt.task);
    if apt.third {
      var tier := ctx.store.third;
      ctx.store := ctx.store.(third := Tier(tier.pending[apt.task := apt], tier.index + {key}));
    } else {
      var tier := ctx.store.second;
      ctx.store := ctx.store.(second := Tier(tier.pending[apt.task := apt], tier.index + {key}));
    }
  }

  /** DeleteSecondVerificationPending, of a second-tier entry. */
  method DeleteSecondVerificationPending(ctx: Context, t: TaskId)
    modifies ctx
    ensures ctx.store == old(ctx.store).(second := Drop(old(ctx.store).second, t))
  {
    var tier := ctx.store.second;
    if t in tier.pending {
      tier := tier.(index := tier.index - {(tier.pending[t].submittedAt, t)});
      tier := tier.(pending := tier.pending - {t});
    }
    ctx.store := ctx.store.(second := tier);
  }

  /** Debit what the user can pay and split it, in a cached context that a failed send discards. */
  method ChargeSuccess(ctx: Context, j: Job, fee: int, refused: set<nat>, p: Params) returns (ok: bool)
    requires Payable(ctx.store, j)
    modifies ctx
    ensures ok <==> PaySuccess(old(ctx.store), j, fee, refused, p).Some?
    ensures ctx.store == if ok then PaySuccess(old(ctx.store), j, fee, refused, p).value else old(ctx.store)
  {
    var balance := ctx.store.accounts[j.user.account].balance;
    var payable := fee;
    if balance < fee { payable := balance; }
    var cache := ctx.CacheContext();
    cache.store := Debit(cache.store, j, fee, payable, cache.store.bank);
    var executor := 0;
    if payable > 0 {
      ok, executor := DistributeSuccessFee(cache, payable, j.worker.account, j.verifiers, refused, p);
      if !ok { return false; }
    }
    cache.store := CreditWorker(cache.store, j.task, executor);
    SetSettledTask(cache, j, TaskSettled, payable);
    ctx.store := cache.store;
    return true;
  }

  method ChargeFail(ctx: Context, j: Job, failFee: nat, refused: set<nat>, p: Params) returns (ok: bool)
    requires Payable(ctx.store, j)
    modifies ctx
    ensures ok <==> PayFail(old(ctx.store), j, failFee, refused, p).Some?
    ensures ctx.store == if ok then PayFail(old(ctx.store), j, failFee, refused, p).value else old(ctx.store)
  {
    var balance := ctx.store.accounts[j.user.account].balance;
    var payable := failFee;
    if balance < failFee { payable := balance; }
    var cache := ctx.CacheContext();
    cache.store := Debit(cache.store, j, failFee, payable, cache.store.bank);
    if payable > 0 {
      ok := DistributeFailFee(cache, payable, j.verifiers, refused, p);
      if !ok { return false; }
    }
    cache.store := CreditWorker(cache.store, j.task, 0);
    SetSettledTask(cache, j, TaskFailSettled, payable);
    ctx.store := cache.store;
    return true;
  }

  /** The record is written outside the cache, so it stays when the payment does not go through. */
  method ChargeFailPerToken(ctx: Context, j: Job, failFee: nat, refused: set<nat>, p: Params)
    requires Payable(ctx.store, j)
    modifies ctx
    ensures ctx.store == PayFailPerToken(old(ctx.store), j, failFee, refused, p)
  {
    if ctx.store.accounts[j.user.account].balance >= failFee && failFee > 0 {
      var paid := ChargeFail(ctx, j, failFee, refused, p);
    }
    SetSettledTask(ctx, j, TaskFailSettled, 0);
  }

  /** Send an accepted row to audit. */
  method OpenSecondVerification(ctx: Context, e: Entry)
    modifies ctx
    ensures ctx.store == OpenAudit(old(ctx.store), e)
  {
    var addresses := VerifierAddresses(e.verifiers);
    var apt := Pending(e.task, e.status, ctx.store.height, e.user, e.worker, addresses, e.fee.amount, e.expire,
                       false, 0, 0, 0, 0, 0);
    if IsPerToken(e) {
      apt := apt.(feeIn := e.feeIn, feeOut := e.feeOut, maxFee := e.maxFee.amount,
                  inTokens := e.workerIn, outTokens := e.workerOut);
    }
    var h := ctx.store.hist;
    var again := if UnderAudit(ctx.store, e.task) then {e.task} else {};
    ctx.store := ctx.store.(hist := h.(originals := h.originals[e.task := addresses],
                                       named := h.named && e.task != [], reopened := h.reopened + again));
    SetSecondVerificationPending(ctx, apt);
    var j := Job(e.task, e.user, e.worker, addresses, e.expire);
    SetSettledTask(ctx, j, TaskPendingSecondVerification, e.fee.amount);
  }

  /** Charge an accepted row that is not audited. The release comes first and is not undone. */
  method SettleNow(ctx: Context, x: EntryInput, p: Params) returns (panicked: bool)
    requires !Skipped(ctx.store, x.entry) && !ForcedAudit(x.entry, p) && !x.audit
    modifies ctx
    ensures Ends(SettleEntry(old(ctx.store), x, p), panicked, ctx.store)
  {
    var e := x.entry;
    var addresses := VerifierAddresses(e.verifiers);
    var j := Job(e.task, e.user, e.worker, addresses, e.expire);
    var fee := ResolveFee(e, p);
    if fee.None? { return true; }
    panicked := UnfreezeBalance(ctx, e.user.account, e.task);
    if panicked { return; }
    if e.status == SUCCESS {
      var paid := ChargeSuccess(ctx, j, fee.value, x.refused, p);
    } else {
      var failFee := FailFee(fee.value, p);
      if failFee.None? { return true; }
      if IsPerToken(e) {
        ChargeFailPerToken(ctx, j, failFee.value, x.refused, p);
      } else {
        var paid := ChargeFail(ctx, j, failFee.value, x.refused, p);
      }
    }
  }

  /** The rows of a batch with a valid header. */
  method ProcessBatchSettlement(ctx: Context, rows: seq<EntryInput>, p: Params) returns (panicked: bool)
    modifies ctx
    ensures Ends(SettleAll(old(ctx.store), rows, p), panicked, ctx.store)
  {
    panicked := false;
    for i := 0 to |rows|
      invariant SettleAll(old(ctx.store), rows, p) == SettleAll(ctx.store, rows[i..], p)
    {
      assert rows[i..][0] == rows[i] && rows[i..][1..] == rows[i + 1..];
      var ok := Accepts(ctx, rows[i].entry);
      if !ok { continue; }
      var force := ForcesAudit(rows[i].entry, p);
      if force || rows[i].audit {
        OpenSecondVerification(ctx, rows[i].entry);
        continue;
      }
      panicked := SettleNow(ctx, rows[i], p);
      if panicked { return; }
    }
  }

  // ---------- Audits ----------

  /** The fee scaled down to what the user could pay is what the user could pay. */
  lemma ScaledFee(fee: nat, payable: nat)
    requires fee > 0
    ensures fee * payable / fee == payable
  {
    QuotientIsUnique(fee * payable, fee, payable);
  }

  /** Charge an audited task as successful, spreading a shortfall over the payouts. */
  method ChargeAuditedSuccess(ctx: Context, j: Job, baseFee: int, refused: set<nat>, p: Params) returns (ok: bool)
    requires Payable(ctx.store, j)
    modifies ctx
    ensures ok <==> PaySuccess(old(ctx.store), j, baseFee, refused, p).Some?
    ensures ctx.store == if ok then PaySuccess(old(ctx.store), j, baseFee, refused, p).value else old(ctx.store)
  {
    var balance := ctx.store.accounts[j.user.account].balance;
    var payable, distributable := baseFee, baseFee;
    if baseFee > 0 && balance < baseFee {
      payable := balance;
      distributable := baseFee * payable / baseFee;
      ScaledFee(baseFee, balance);
    }
    var cache := ctx.CacheContext();
    cache.store := Debit(cache.store, j, baseFee, payable, cache.store.bank);
    var executor := 0;
    if distributable > 0 {
      ok, executor := DistributeSuccessFee(cache, distributable, j.worker.account, j.verifiers, refused, p);
      if !ok { return false; }
    }
    cache.store := CreditWorker(cache.store, j.task, executor);
    SetSettledTask(cache, j, TaskSettled, distributable);
    ctx.store := cache.store;
    return true;
  }

  ghost predicate EndsVerdict(v: Verdict, panicked: bool, settled: bool, after: State) {
    panicked == v.Crash? && (v.Done? ==> after == v.state && settled == v.settled)
  }

  /** The base fee of an audited task; None where reading MaxFee panics. */
  method AuditedFee(apt: Pending, override: uint32) returns (fee: Option<int>)
    ensures fee == BaseFee(apt, override)
  {
    if apt.feeIn == 0 && apt.feeOut == 0 { return Some(apt.fee); }
    var outTokens := apt.outTokens;
    if override > 0 { outTokens := override; }
    if !(0 <= apt.maxFee < TWO_64) { return None; }
    var computed := CalculatePerTokenFee(apt.inTokens, outTokens, apt.feeIn, apt.feeOut, apt.maxFee);
    return Some(computed);
  }

  /** settleAuditedTask: true when the task has reached a final state. */
  method SettleAuditedTask(ctx: Context, apt: Pending, asSuccess: bool, override: uint32, refused: set<nat>, p: Params)
    returns (panicked: bool, settled: bool)
    modifies ctx
    ensures var v := SettleAudited(old(ctx.store), apt, asSuccess, override, refused, p);
            EndsVerdict(v, panicked, settled, ctx.store)
  {
    if apt.task in ctx.store.fraud { return false, true; }
    if !apt.user.Bech32? || !apt.worker.Bech32? || apt.user.account !in ctx.store.accounts { return false, false; }
    var j := AuditJob(apt);
    settled := false;
    panicked := UnfreezeBalance(ctx, apt.user.account, apt.task);
    if panicked { return; }
    var baseFee := AuditedFee(apt, override);
    if baseFee.None? { return true, false; }
    if asSuccess {
      settled := ChargeAuditedSuccess(ctx, j, baseFee.value, refused, p);
    } else {
      var failFee := FailFee(baseFee.value, p);
      if failFee.None? { return true, false; }
      settled := ChargeFail(ctx, j, failFee.value, refused, p);
    }
  }

  method Passes(results: seq<bool>, p: Params) returns (pass: bool)
    ensures pass <==> CountPass(results) >= p.threshold
  {
    var passCount := 0;
    for i := 0 to |results|
      invariant passCount == CountPass(results[..i])
    {
      assert results[..i + 1] == results[..i] + [results[i]];
      CountPassSnoc(results[..i], results[i]);
      if results[i] { passCount := passCount + 1; }
    }
    assert results[..|results|] == results;
    return passCount >= p.threshold;
  }

  /** Do the second verifiers' counts contradict the settled one? The median sorts a copy in place. */
  method DetectTokenFraud(apt: Pending, ar: AuditRecord, auditPass: bool, p: Params)
    returns (fraud: bool, median: uint32)
    requires auditPass == AuditPass(ar, p)
    ensures fraud == TokenFraud(apt, ar, p)
    ensures fraud ==> median == Median(ar.outTokens)
  {
    median := 0;
    if !auditPass || !p.perTokenEnabled || apt.feeOut == 0 { return false, 0; }
    var counts := new uint32[|ar.outTokens|](i requires 0 <= i < |ar.outTokens| => ar.outTokens[i]);
    assert counts[..] == ar.outTokens;
    median := MedianUint32(counts);
    if median == 0 || apt.outTokens == 0 { return false, median; }
    var delta := if apt.outTokens > median then apt.outTokens - median else median - apt.outTokens;
    return delta > EffectiveTolerance(apt.outTokens, p.tolerance, p.tolerancePct), median;
  }

  /** processAuditJudgment, on the pending second-tier entry of the task. */
  method ProcessAuditJudgment(ctx: Context, apt: Pending, ar: AuditRecord, escalate: bool, refused: set<nat>, p: Params)
    returns (panicked: bool)
    modifies ctx
    ensures Ends(Judge(old(ctx.store), apt, ar, escalate, refused, p), panicked, ctx.store)
  {
    panicked := false;
    var auditPass := Passes(ar.results, p);
    ctx.store := CountJudgment(ctx.store, apt.task);
    if apt.third { return; }
    if escalate {
      SetSecondVerificationPending(ctx, apt.(submittedAt := ctx.store.height, third := true));
      DeleteSecondVerificationPending(ctx, apt.task);
      return;
    }
    var fraud, median := DetectTokenFraud(apt, ar, auditPass, p);
    if fraud {
      panicked := ResettleTokenFraud(ctx, apt, ar, median, refused, p);
    } else if apt.status == SUCCESS && !auditPass {
      SetSettledTask(ctx, AuditJob(apt), TaskFailed, 0);
      DeleteSecondVerificationPending(ctx, apt.task);
    } else {
      var settled;
      var asSuccess := auditPass && (apt.status == SUCCESS || apt.status == FAIL);
      panicked, settled := SettleAuditedTask(ctx, apt, asSuccess, 0, refused, p);
      if panicked { return; }
      if settled { DeleteSecondVerificationPending(ctx, apt.task); }
    }
  }

  method ResettleTokenFraud(ctx: Context, apt: Pending, ar: AuditRecord, median: uint32, refused: set<nat>, p: Params)
    returns (panicked: bool)
    requires median == Median(ar.outTokens)
    modifies ctx
    ensures Ends(SettleTokenFraud(old(ctx.store), apt, ar, refused, p), panicked, ctx.store)
  {
    if apt.user.Bech32? {
      panicked := UnfreezeBalance(ctx, apt.user.account, apt.task);
      if panicked { return; }
    }
    SetSettledTask(ctx, AuditJob(apt), TaskFailed, 0);
    DeleteSecondVerificationPending(ctx, apt.task);
    var settled;
    panicked, settled := SettleAuditedTask(ctx, apt, false, median, refused, p);
  }

  /** Is an address in a list? */
  method Lists(addresses: seq<Address>, a: Address) returns (found: bool)
    ensures found <==> a in addresses
  {
    for i := 0 to |addresses|
      invariant a !in addresses[..i]
    {
      if addresses[i] == a { return true; }
      assert addresses[..i + 1] == addresses[..i] + [addresses[i]];
    }
    assert addresses[..|addresses|] == addresses;
    return false;
  }

  /** ProcessSecondVerificationResult; the judgment fires with the result that completes the record. */
  method ProcessSecondVerificationResult(ctx: Context, m: AuditInput, p: Params) returns (panicked: bool)
    modifies ctx
    ensures Ends(AuditResult(old(ctx.store), m, p), panicked, ctx.store)
  {
    panicked := false;
    if !m.authentic || !m.verifier.Bech32? { return; }
    if m.task in ctx.store.audits && |ctx.store.audits[m.task].verifiers| >= p.secondVerifiers { return; }
    if m.task !in ctx.store.second.pending { return; }
    var apt := ctx.store.second.pending[m.task];
    if apt.expire > 0 && ctx.store.height > apt.expire { return; }
    var original := Lists(apt.verifiers, m.verifier);
    if original { return; }
    var ar := AuditRecord([m.verifier], [m.pass], [m.inTokens], [m.outTokens], ctx.store.height);
    if m.task in ctx.store.audits {
      ar := ctx.store.audits[m.task];
      var again := Lists(ar.verifiers, m.verifier);
      if again { return; }
      ar := AuditRecord(ar.verifiers + [m.verifier], ar.results + [m.pass], ar.inTokens + [m.inTokens],
                        ar.outTokens + [m.outTokens], ctx.store.height);
    } else {
      assert ar == Extend(AuditRecord([], [], [], [], 0), m, ctx.store.height);
    }
    ctx.store := ctx.store.(audits := ctx.store.audits[m.task := ar]);
    if |ar.results| >= p.secondVerifiers {
      panicked := ProcessAuditJudgment(ctx, apt, ar, m.escalate, m.refused, p);
    }
  }

  method ProcessSecondVerificationResults(ctx: Context, results: seq<AuditInput>, p: Params) returns (panicked: bool)
    modifies ctx
    ensures Ends(AuditAll(old(ctx.store), results, p), panicked, ctx.store)
  {
    panicked := false;
    for i := 0 to |results|
      invariant AuditAll(old(ctx.store), results, p) == AuditAll(ctx.store, results[i..], p)
    {
      assert results[i..][0] == results[i] && results[i..][1..] == results[i + 1..];
      panicked := ProcessSecondVerificationResult(ctx, results[i], p);
      if panicked { return; }
    }
  }

  // ---------- Fraud proofs ----------

  method ProcessFraudProof(ctx: Context, m: FraudMsg, p: Params)
    modifies ctx
    ensures ctx.store == FraudProof(old(ctx.store), m, p)
  {
    var s := ctx.store;
    if m.task in s.fraud || !m.worker.Bech32? { return; }
    if m.task in s.settled {
      var r := s.settled[m.task];
      if r.worker != Empty && r.worker != m.worker { return; }
      if r.settledAt > 0 && s.height > r.settledAt + p.fraudWindow { return; }
      if r.user != Empty && r.user != m.reporter { return; }
    } else if m.task in s.second.pending {
      var q := s.second.pending[m.task];
      if q.submittedAt > 0 && s.height > q.submittedAt + p.fraudWindow { return; }
      if q.user != Empty && q.user != m.reporter { return; }
    } else if m.task !in s.reserved {
      return;
    }
    if !m.evidence { return; }
    assert !FraudRejected(s, m, p);
    Punish(ctx, m, p);
  }

  /** Mark the task; recover the executor share of a settled fee for its user, or the reporter. */
  method Punish(ctx: Context, m: FraudMsg, p: Params)
    requires m.worker.Bech32?
    modifies ctx
    ensures ctx.store == Convict(old(ctx.store), m, p)
  {
    ctx.store := ctx.store.(fraud := ctx.store.fraud + {m.task});
    if m.task !in ctx.store.settled || ctx.store.settled[m.task].status != TaskSettled { return; }
    var r := ctx.store.settled[m.task];
    ctx.store := ctx.store.(settled := ctx.store.settled[m.task := r.(status := TaskFraud)],
                            hist := ctx.store.hist.(defrauded := ctx.store.hist.defrauded + {m.task}));
    if r.fee <= 0 { return; }
    var amount := PerMille(r.fee, p.ratios.executor);
    if amount == 0 { return; }
    var refund := m.reporter;
    if r.user.Bech32? { refund := r.user; }
    if !refund.Bech32? { return; }
    var sent := Transfer(ctx.store.bank, m.worker.account, refund.account, amount, m.refused);
    if sent.Some? {
      var h := ctx.store.hist;
      var clawed := h.clawed[m.task := Get(h.clawed, m.task) + amount];
      ctx.store := ctx.store.(bank := sent.value, hist := h.(clawed := clawed));
    }
  }

  // ---------- The end of a block ----------

  lemma {:induction false} CollectSnoc(pending: map<TaskId, Pending>, keys: seq<TimeoutKey>, k: TimeoutKey)
    ensures Collect(pending, keys + [k]) ==
            Collect(pending, keys) + if k.1 != [] && k.1 in pending then [pending[k.1]] else []
  {
    if keys == [] {
      assert keys + [k] == [k] && [k][1..] == [];
    } else {
      assert (keys + [k])[1..] == keys[1..] + [k];
      CollectSnoc(pending, keys[1..], k);
    }
  }

  /** The first loop of processTimeoutsByIndex: look up the entry of each scanned key. */
  method CollectTimedOut(pending: map<TaskId, Pending>, keys: seq<TimeoutKey>) returns (toProcess: seq<Pending>)
    ensures toProcess == Collect(pending, keys)
  {
    toProcess := [];
    for i := 0 to |keys|
      invariant toProcess == Collect(pending, keys[..i])
    {
      assert keys[..i + 1] == keys[..i] + [keys[i]];
      CollectSnoc(pending, keys[..i], keys[i]);
      var t := keys[i].1;
      if |t| == 0 { continue; }
      if t in pending { toProcess := toProcess + [pending[t]]; }
    }
    assert keys[..|keys|] == keys;
  }

  /** One timed-out entry: settle it or force a final record, then delete it and the key at its position. */
  method FinishTimedOut(ctx: Context, apt: Pending, key: TimeoutKey, third: bool, refused: set<nat>, p: Params)
    returns (panicked: bool)
    modifies ctx
    ensures Ends(Finish(old(ctx.store), apt, key, third, refused, p), panicked, ctx.store)
  {
    var asSuccess := apt.status == SUCCESS;
    if third && apt.task in ctx.store.audits {
      asSuccess := Passes(ctx.store.audits[apt.task].results, p);
    }
    var settled;
    panicked, settled := SettleAuditedTask(ctx, apt, asSuccess, 0, refused, p);
    if panicked { return; }
    if !settled { SetSettledTask(ctx, AuditJob(apt), TaskFailed, 0); }
    if third {
      var tier := ctx.store.third;
      ctx.store := ctx.store.(third := Tier(tier.pending - {apt.task}, tier.index - {key}));
    } else {
      var tier := ctx.store.second;
      ctx.store := ctx.store.(second := Tier(tier.pending - {apt.task}, tier.index - {key}));
    }
  }

  /** processTimeoutsByIndex over the scanned keys, in the order of the iterator. */
  method ProcessTimeoutsByIndex(ctx: Context, keys: seq<TimeoutKey>, third: bool, refused: set<nat>, p: Params)
    returns (panicked: bool)
    modifies ctx
    ensures Ends(Sweep(old(ctx.store), Collect(TierOf(old(ctx.store), third).pending, keys), keys, third, refused, p),
                 panicked, ctx.store)
  {
    panicked := false;
    var pending := if third then ctx.store.third.pending else ctx.store.second.pending;
    var toProcess := CollectTimedOut(pending, keys);
    for i := 0 to |toProcess|
      invariant Sweep(old(ctx.store), toProcess, keys, third, refused, p)
             == Sweep(ctx.store, toProcess[i..], keys[i..], third, refused, p)
    {
      assert toProcess[i..][1..] == toProcess[i + 1..] && keys[i..][1..] == keys[i + 1..];
      panicked := FinishTimedOut(ctx, toProcess[i], keys[i], third, refused, p);
      if panicked { return; }
    }
  }

  method HandleTimeouts(ctx: Context, keys: seq<TimeoutKey>, third: bool, refused: set<nat>, p: Params)
    returns (panicked: bool)
    modifies ctx
    ensures Ends(Timeouts(old(ctx.store), keys, third, refused, p), panicked, ctx.store)
  {
    var cutoff := ctx.store.height - if third then p.thirdTimeout else p.secondTimeout;
    if cutoff <= 0 { return false; }
    panicked := ProcessTimeoutsByIndex(ctx, keys, third, refused, p);
  }

  /** The old records, each once. */
  method GatherExpired(settled: map<TaskId, Settled>, height: int, p: Params) returns (toDelete: seq<TaskId>)
    ensures forall t :: t in toDelete <==> t in settled && CleanupDue(settled[t], height, p)
    ensures forall i, j :: 0 <= i < j < |toDelete| ==> toDelete[i] != toDelete[j]
  {
    var cutoff := height - p.cleanupBuffer;
    var unseen := settled.Keys;
    toDelete := [];
    while unseen != {}
      invariant unseen <= settled.Keys
      invariant forall t :: t in toDelete <==> t in settled.Keys - unseen && CleanupDue(settled[t], height, p)
      invariant forall i, j :: 0 <= i < j < |toDelete| ==> toDelete[i] != toDelete[j]
      decreases |unseen|
    {
      var t :| t in unseen;
      unseen := unseen - {t};
      var r := settled[t];
      if r.expire == 0 { continue; }
      if r.settledAt > 0 && r.settledAt < cutoff { toDelete := toDelete + [t]; }
    }
  }

  /** CleanupExpiredTasks: gather, then delete. */
  method CleanupExpiredTasks(ctx: Context, p: Params) returns (deleted: nat)
    modifies ctx
    ensures ctx.store == Cleanup(old(ctx.store), p)
  {
    ghost var was := ctx.store.settled;
    var toDelete := GatherExpired(ctx.store.settled, ctx.store.height, p);
    for i := 0 to |toDelete|
      invariant ctx.store == old(ctx.store).(settled := ctx.store.settled)
      invariant forall t :: t in ctx.store.settled <==> t in was && t !in toDelete[..i]
      invariant forall t :: t in ctx.store.settled ==> ctx.store.settled[t] == was[t]
    {
      ctx.store := ctx.store.(settled := ctx.store.settled - {toDelete[i]});
      assert toDelete[..i + 1] == toDelete[..i] + [toDelete[i]];
    }
    assert toDelete[..|toDelete|] == toDelete;
    return |toDelete|;
  }

  /** EndBlock: cleanup, then both sweeps; `scan2` and `scan3` are what the iterators yield. */
  method EndBlocker(ctx: Context, scan2: seq<TimeoutKey>, scan3: seq<TimeoutKey>, refused: set<nat>, p: Params)
    returns (panicked: bool)
    modifies ctx
    ensures Ends(EndBlock(old(ctx.store), scan2, scan3, refused, p), panicked, ctx.store)
  {
    var deleted := CleanupExpiredTasks(ctx, p);
    panicked := HandleTimeouts(ctx, scan2, false, refused, p);
    if panicked { return; }
    panicked := HandleTimeouts(ctx, scan3, true, refused, p);
    if panicked { return; }
    ctx.store := ctx.store.(height := ctx.store.height + 1);
  }
}
