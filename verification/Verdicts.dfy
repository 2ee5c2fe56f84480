/** Who pays what: the outcome of a batch row, an audit judgment and an audit timeout, told by balances, wallets
    and records, from what the entry, the votes and the counts say
    (x/settlement/keeper/keeper.go:839-1207, 1686-1931, 2404-2455). */
module Verdicts {
  import opened Sums
  import opened FeeSplit
  import opened Ledger
  import opened Effects

  /** The user's balance fell by `paid`, no other account changed, and the task is recorded as `status`. */
  ghost predicate Charged(s: State, s2: State, j: Job, paid: int, status: TaskStatus) {
    && j.user.Bech32? && j.user.account in s.accounts && j.user.account in s2.accounts && s2.height == s.height
    && s2.accounts[j.user.account].balance == s.accounts[j.user.account].balance - paid
    && (forall v :: v != j.user.account ==> (v in s.accounts <==> v in s2.accounts))
    && (forall v :: v != j.user.account && v in s.accounts ==> v in s2.accounts && s2.accounts[v] == s.accounts[v])
    && j.task in s2.settled && s2.settled[j.task].status == status
    && s2.settled[j.task].user == j.user && s2.settled[j.task].worker == j.worker
    && s2.settled[j.task].originals == j.verifiers
    && s2.settled[j.task].expire == j.expire && s2.settled[j.task].settledAt == s.height
  }

  /** No balance and no coin moved. */
  ghost predicate Unmoved(s: State, s2: State) {
    && s2.bank == s.bank && s2.accounts.Keys == s.accounts.Keys
    && (forall v :: v in s.accounts ==> s2.accounts[v].balance == s.accounts[v].balance)
    && s2.hist.workerPaid == s.hist.workerPaid
  }

  /** The worker's part of what was paid. */
  function Earned(paid: int, verifiers: seq<Address>, p: Params): nat {
    if paid > 0 then WorkerShare(paid, verifiers, p.ratios) else 0
  }

  /** A success charges the fee or what is there, and gives the worker the rest after verifiers and fund. */
  ghost predicate PaidAsSuccess(s: State, s2: State, j: Job, fee: int, p: Params) {
    && j.user.Bech32? && j.worker.Bech32? && j.user.account in s.accounts
    && var paid := Min(fee, s.accounts[j.user.account].balance);
       && Charged(s, s2, j, paid, TaskSettled) && s2.settled[j.task].fee == paid
       && (if paid <= 0 then s2.bank == s.bank
           else SplitAsSuccess(s.bank, s2.bank, paid, j.worker.account, j.verifiers, p.ratios))
       && Get(s2.hist.workerPaid, j.task) == Get(s.hist.workerPaid, j.task) + Earned(paid, j.verifiers, p)
  }

  /** A failure charges the fail ratio of the fee or what is there, and gives the worker nothing. */
  ghost predicate PaidAsFailure(s: State, s2: State, j: Job, fee: int, p: Params) {
    && j.user.Bech32? && j.user.account in s.accounts
    && var failFee := if fee >= 0 then fee * p.failRatio / 1000 else 0;
       var paid := Min(failFee, s.accounts[j.user.account].balance);
       && Charged(s, s2, j, paid, TaskFailSettled)
       && (if paid <= 0 then s2.bank == s.bank else SplitAsFailure(s.bank, s2.bank, paid, j.verifiers, p.ratios))
       && Get(s2.hist.workerPaid, j.task) == Get(s.hist.workerPaid, j.task)
  }

  lemma ChargeOutcome(s: State, j: Job, asked: int, paid: int, ps: seq<Payout>, share: nat, status: TaskStatus,
                      refused: set<nat>)
    requires Payable(s, j) && paid <= Balance(s, j)
    requires Charge(s, j, asked, paid, ps, share, status, refused).Some?
    ensures var s2 := Charge(s, j, asked, paid, ps, share, status, refused).value;
            && Charged(s, s2, j, paid, status) && s2.settled[j.task].fee == paid
            && Get(s2.hist.workerPaid, j.task) == Get(s.hist.workerPaid, j.task) + share
            && PayAll(s.bank, ps, refused) == Some(s2.bank)
  {
  }

  lemma PaySuccessOutcome(s: State, j: Job, fee: int, refused: set<nat>, p: Params)
    requires Payable(s, j) && PaySuccess(s, j, fee, refused, p).Some?
    ensures PaidAsSuccess(s, PaySuccess(s, j, fee, refused, p).value, j, fee, p)
  {
    var paid := Min(fee, Balance(s, j));
    if paid <= 0 {
      ChargeOutcome(s, j, fee, paid, [], 0, TaskSettled, refused);
    } else {
      ChargeOutcome(s, j, fee, paid, SuccessPayouts(paid, j.worker.account, j.verifiers, p.ratios),
                    WorkerShare(paid, j.verifiers, p.ratios), TaskSettled, refused);
      SuccessReaches(s.bank, paid, j.worker.account, j.verifiers, p.ratios, refused);
    }
  }

  lemma PayFailOutcome(s: State, j: Job, fee: int, refused: set<nat>, p: Params)
    requires Payable(s, j) && FailFee(fee, p).Some? && PayFail(s, j, FailFee(fee, p).value, refused, p).Some?
    ensures PaidAsFailure(s, PayFail(s, j, FailFee(fee, p).value, refused, p).value, j, fee, p)
  {
    var failFee := FailFee(fee, p).value;
    var paid := Min(failFee, Balance(s, j));
    ChargeOutcome(s, j, failFee, paid, if paid == 0 then [] else FailPayouts(paid, j.verifiers, p.ratios), 0,
                  TaskFailSettled, refused);
    if paid > 0 { FailureReaches(s.bank, paid, j.verifiers, p.ratios, refused); }
  }

  /** No recipient is refused and the module account holds the user's balance, as it does in every solvent state. */
  ghost predicate BankPays(s: State, j: Job, refused: set<nat>, p: Params) {
    Payable(s, j) && refused == {} && Balance(s, j) <= s.bank.pool && ValidRatios(p.ratios)
  }

  /** Then no payout fails. */
  lemma PayoutsGoThrough(s: State, j: Job, fee: int, refused: set<nat>, p: Params)
    requires BankPays(s, j, refused, p)
    ensures PaySuccess(s, j, fee, refused, p).Some?
    ensures FailFee(fee, p).Some? ==> PayFail(s, j, FailFee(fee, p).value, refused, p).Some?
  {
    var paid := Min(fee, Balance(s, j));
    if paid > 0 {
      SuccessSplitExact(paid, j.worker.account, j.verifiers, p.ratios);
      PayAllSucceeds(s.bank, SuccessPayouts(paid, j.worker.account, j.verifiers, p.ratios), refused);
    }
    if FailFee(fee, p).Some? {
      var failed := Min(FailFee(fee, p).value, Balance(s, j));
      FailSplitBound(failed, j.verifiers, p.ratios);
      PayAllSucceeds(s.bank, FailPayouts(failed, j.verifiers, p.ratios), refused);
    }
  }

  lemma ReleaseMovesNothing(s: State, u: nat, t: TaskId)
    ensures Unmoved(s, Unfreeze(s, u, t)) && Unfreeze(s, u, t).settled == s.settled
    ensures forall v :: v != u && v in s.accounts ==> Unfreeze(s, u, t).accounts[v] == s.accounts[v]
  {
  }

  lemma AfterReleaseOutcome(s: State, s1: State, s2: State, j: Job, fee: int, p: Params)
    requires j.user.Bech32? && s1 == Unfreeze(s, j.user.account, j.task)
    ensures PaidAsSuccess(s1, s2, j, fee, p) ==> PaidAsSuccess(s, s2, j, fee, p)
    ensures PaidAsFailure(s1, s2, j, fee, p) ==> PaidAsFailure(s, s2, j, fee, p)
  {
    ReleaseMovesNothing(s, j.user.account, j.task);
  }

  // ---------- What a row asks ----------

  /** The reports of the verifiers, the resolved counts, and the fee for these, capped. */
  ghost predicate PricedAt(e: Entry, p: Params, ins: seq<Tokens.uint32>, outs: seq<Tokens.uint32>, i: Tokens.uint32,
                           o: Tokens.uint32, fee: int)
  {
    && |ins| == |outs| == |e.verifiers|
    && (forall k :: 0 <= k < |ins| ==> ins[k] == e.verifiers[k].inTokens && outs[k] == e.verifiers[k].outTokens)
    && Tokens.CountsAs(e.workerIn, ins, p.tolerance, p.tolerancePct, i)
    && Tokens.CountsAs(e.workerOut, outs, p.tolerance, p.tolerancePct, o)
    && fee == Min(i * e.feeIn + o * e.feeOut, e.maxFee.amount)
  }

  /** Per request the fee; per token the price of the counts, or MaxFee while that billing is off. */
  ghost predicate RowPrice(e: Entry, p: Params, fee: int) {
    if e.feeIn == 0 || e.feeOut == 0 then fee == e.fee.amount
    else if !p.perTokenEnabled then fee == e.maxFee.amount
    else exists ins, outs, i, o :: PricedAt(e, p, ins, outs, i, o, fee)
  }

  lemma TokensArePriced(e: Entry, p: Params)
    requires e.feeIn > 0 && e.feeOut > 0 && p.perTokenEnabled && 0 <= e.maxFee.amount < Tokens.TWO_64
    ensures ActualFee(e, p).Some?
    ensures exists ins, outs, i, o :: PricedAt(e, p, ins, outs, i, o, ActualFee(e, p).value)
  {
    var ins, outs := InReports(e.verifiers), OutReports(e.verifiers);
    var i := Tokens.Resolve(e.workerIn, ins, p.tolerance, p.tolerancePct).0;
    var o := Tokens.Resolve(e.workerOut, outs, p.tolerance, p.tolerancePct).0;
    Tokens.ResolvesAs(e.workerIn, ins, p.tolerance, p.tolerancePct);
    Tokens.ResolvesAs(e.workerOut, outs, p.tolerance, p.tolerancePct);
    assert PricedAt(e, p, ins, outs, i, o, ActualFee(e, p).value);
  }

  /** The fee a row is charged by is what it asks; only an oversized MaxFee has none. */
  lemma RowIsPriced(e: Entry, p: Params)
    ensures ActualFee(e, p).None? <==>
              e.feeIn > 0 && e.feeOut > 0 && p.perTokenEnabled && !(0 <= e.maxFee.amount < Tokens.TWO_64)
    ensures ActualFee(e, p).Some? ==> RowPrice(e, p, ActualFee(e, p).value)
  {
    if e.feeIn > 0 && e.feeOut > 0 && p.perTokenEnabled && 0 <= e.maxFee.amount < Tokens.TWO_64 {
      TokensArePriced(e, p);
    }
  }

  // ---------- Batch rows ----------

  /** Charged as told, or nothing moved and nothing was recorded. */
  ghost predicate SuccessOrNothing(s: State, s2: State, j: Job, fee: int, p: Params) {
    PaidAsSuccess(s, s2, j, fee, p) || (Unmoved(s, s2) && s2.settled == s.settled)
  }

  ghost predicate FailureOrNothing(s: State, s2: State, j: Job, fee: int, p: Params) {
    PaidAsFailure(s, s2, j, fee, p) || (Unmoved(s, s2) && s2.settled == s.settled)
  }

  /** Releasing a reservation and charging a success. */
  lemma ReleaseSuccessOutcome(s: State, j: Job, fee: int, refused: set<nat>, p: Params)
    requires Payable(s, j)
    ensures var s1 := Unfreeze(s, j.user.account, j.task);
            && Payable(s1, j) && SuccessOrNothing(s, Or(PaySuccess(s1, j, fee, refused, p), s1), j, fee, p)
            && (PaySuccess(s1, j, fee, refused, p).Some? ==>
                  PaidAsSuccess(s, PaySuccess(s1, j, fee, refused, p).value, j, fee, p))
            && (BankPays(s, j, refused, p) ==> PaySuccess(s1, j, fee, refused, p).Some?)
  {
    var s1 := Unfreeze(s, j.user.account, j.task);
    ReleaseMovesNothing(s, j.user.account, j.task);
    if BankPays(s, j, refused, p) { PayoutsGoThrough(s1, j, fee, refused, p); }
    if PaySuccess(s1, j, fee, refused, p).Some? {
      PaySuccessOutcome(s1, j, fee, refused, p);
      AfterReleaseOutcome(s, s1, PaySuccess(s1, j, fee, refused, p).value, j, fee, p);
    }
  }

  /** And charging a failure. */
  lemma ReleaseFailOutcome(s: State, j: Job, fee: int, refused: set<nat>, p: Params)
    requires Payable(s, j) && FailFee(fee, p).Some?
    ensures var s1, failFee := Unfreeze(s, j.user.account, j.task), FailFee(fee, p).value;
            && Payable(s1, j) && FailureOrNothing(s, Or(PayFail(s1, j, failFee, refused, p), s1), j, fee, p)
            && (PayFail(s1, j, failFee, refused, p).Some? ==>
                  PaidAsFailure(s, PayFail(s1, j, failFee, refused, p).value, j, fee, p))
            && (BankPays(s, j, refused, p) ==> PayFail(s1, j, failFee, refused, p).Some?)
  {
    var s1, failFee := Unfreeze(s, j.user.account, j.task), FailFee(fee, p).value;
    ReleaseMovesNothing(s, j.user.account, j.task);
    if BankPays(s, j, refused, p) { PayoutsGoThrough(s1, j, fee, refused, p); }
    if PayFail(s1, j, failFee, refused, p).Some? {
      PayFailOutcome(s1, j, fee, refused, p);
      AfterReleaseOutcome(s, s1, PayFail(s1, j, failFee, refused, p).value, j, fee, p);
    }
  }

  /** A failed per-token task is recorded in any case, and charged if the fail fee is there. */
  lemma ReleaseFailPerTokenOutcome(s: State, j: Job, fee: int, refused: set<nat>, p: Params)
    requires Payable(s, j) && FailFee(fee, p).Some?
    ensures var s1, failFee := Unfreeze(s, j.user.account, j.task), FailFee(fee, p).value;
            && Payable(s1, j)
            && var s2 := PayFailPerToken(s1, j, failFee, refused, p);
               && j.task in s2.settled && s2.settled[j.task].status == TaskFailSettled
               && (PaidAsFailure(s, s2, j, fee, p) || Unmoved(s, s2))
               && (if 0 < failFee <= Balance(s, j) then BankPays(s, j, refused, p) ==> PaidAsFailure(s, s2, j, fee, p)
                   else Unmoved(s, s2))
  {
    var s1, failFee := Unfreeze(s, j.user.account, j.task), FailFee(fee, p).value;
    ReleaseFailOutcome(s, j, fee, refused, p);
    ReleaseMovesNothing(s, j.user.account, j.task);
    RecordOutcome(s, Or(PayFail(s1, j, failFee, refused, p), s1), j, fee, p);
    RecordOutcome(s, s1, j, fee, p);
  }

  lemma RecordOutcome(s: State, s2: State, j: Job, fee: int, p: Params)
    ensures var s3 := Record(s2, j, TaskFailSettled, 0);
            && (PaidAsFailure(s, s2, j, fee, p) ==> PaidAsFailure(s, s3, j, fee, p))
            && (Unmoved(s, s2) ==> Unmoved(s, s3))
  {
  }

  /** A row that is taken and not audited is charged as its status says, or nothing moves at all; only a
      failed per-token row is recorded without a charge. */
  lemma RowOutcome(s: State, x: EntryInput, p: Params)
    requires SettleEntry(s, x, p).Go? && SettledNow(s, x, p)
    ensures var e, s2 := x.entry, SettleEntry(s, x, p).state;
            && ActualFee(e, p).Some? && RowPrice(e, p, ActualFee(e, p).value)
            && var fee := ActualFee(e, p).value;
               if e.status == SUCCESS then SuccessOrNothing(s, s2, JobOf(e), fee, p)
               else if !IsPerToken(e) then FailureOrNothing(s, s2, JobOf(e), fee, p)
               else
                 && e.task in s2.settled && s2.settled[e.task].status == TaskFailSettled
                 && (PaidAsFailure(s, s2, JobOf(e), fee, p) || Unmoved(s, s2))
  {
    var j, fee := JobOf(x.entry), ActualFee(x.entry, p).value;
    RowIsPriced(x.entry, p);
    RowOf(s, x, p);
    if x.entry.status == SUCCESS {
      ReleaseSuccessOutcome(s, j, fee, x.refused, p);
    } else if IsPerToken(x.entry) {
      ReleaseFailPerTokenOutcome(s, j, fee, x.refused, p);
    } else {
      ReleaseFailOutcome(s, j, fee, x.refused, p);
    }
  }

  /** When the bank pays, the row is charged, except for a failed per-token row whose fail fee is zero
      or more than the balance: there nothing moves. */
  lemma RowIsCharged(s: State, x: EntryInput, p: Params)
    requires SettleEntry(s, x, p).Go? && SettledNow(s, x, p) && BankPays(s, JobOf(x.entry), x.refused, p)
    ensures var e, s2 := x.entry, SettleEntry(s, x, p).state;
            && ActualFee(e, p).Some? && RowPrice(e, p, ActualFee(e, p).value)
            && var fee := ActualFee(e, p).value;
               if e.status == SUCCESS then PaidAsSuccess(s, s2, JobOf(e), fee, p)
               else
                 && FailFee(fee, p).Some?
                 && if !IsPerToken(e) || 0 < FailFee(fee, p).value <= Balance(s, JobOf(e))
                    then PaidAsFailure(s, s2, JobOf(e), fee, p) else Unmoved(s, s2)
  {
    var j, fee := JobOf(x.entry), ActualFee(x.entry, p).value;
    RowIsPriced(x.entry, p);
    RowOf(s, x, p);
    if x.entry.status == SUCCESS {
      ReleaseSuccessOutcome(s, j, fee, x.refused, p);
    } else if IsPerToken(x.entry) {
      ReleaseFailPerTokenOutcome(s, j, fee, x.refused, p);
    } else {
      ReleaseFailOutcome(s, j, fee, x.refused, p);
    }
  }

  /** The checks a row has to pass. */
  ghost predicate Takes(s: State, e: Entry) {
    && (if e.feeIn > 0 && e.feeOut > 0 then e.maxFee.denom == Ufai else e.fee.denom == Ufai)
    && e.task !in s.settled && e.task !in s.fraud && (e.expire <= 0 || s.height <= e.expire)
    && e.userSig != [] && e.workerSig != [] && |e.verifySigs| >= 3
    && (forall k :: 0 <= k < |e.verifySigs| ==> e.verifySigs[k] != [])
    && e.user.Bech32? && e.worker.Bech32? && e.user.account in s.accounts
  }

  /** The worker counts output tokens and no verifier does. */
  ghost predicate Uncounted(e: Entry, p: Params) {
    && e.feeIn > 0 && e.feeOut > 0 && p.perTokenEnabled && e.workerOut > 0
    && forall k :: 0 <= k < |e.verifiers| ==> e.verifiers[k].outTokens == 0
  }

  /** The row awaits its audit, with everything the audit will need, and nothing has moved. */
  ghost predicate SentToAudit(s: State, s2: State, e: Entry) {
    && s2.bank == s.bank && s2.accounts == s.accounts && s2.reserved == s.reserved
    && e.task in s2.settled && s2.settled[e.task].status == TaskPendingSecondVerification
    && e.task in s2.second.pending && (s.height, e.task) in s2.second.index
    && var apt := s2.second.pending[e.task];
       && apt.status == e.status && apt.submittedAt == s.height && apt.expire == e.expire && !apt.third
       && apt.user == e.user && apt.worker == e.worker && |apt.verifiers| == |e.verifiers|
       && (forall k :: 0 <= k < |e.verifiers| ==> apt.verifiers[k] == e.verifiers[k].address)
       && AuditPrice(apt, 0) == if e.feeIn == 0 || e.feeOut == 0 then e.fee.amount
                                else Min(e.workerIn * e.feeIn + e.workerOut * e.feeOut, e.maxFee.amount)
  }

  /** A row is passed over, sent to audit or settled, by what it says alone. */
  lemma RowFate(s: State, x: EntryInput, p: Params)
    ensures if !Takes(s, x.entry) then SettleEntry(s, x, p) == Go(s)
            else if x.audit || Uncounted(x.entry, p) then
              SettleEntry(s, x, p).Go? && SentToAudit(s, SettleEntry(s, x, p).state, x.entry)
            else SettledNow(s, x, p)
  {
    assert Takes(s, x.entry) <==> !Skipped(s, x.entry);
    assert Uncounted(x.entry, p) <==> ForcedAudit(x.entry, p);
  }

  /** The only ways a row panics: MaxFee is not a number of 64 bits, FrozenBalance has no denomination yet, or the
      fail fee of a negative fee is negative. */
  lemma RowPanics(s: State, x: EntryInput, p: Params)
    ensures SettleEntry(s, x, p).Panicked? <==>
              && Takes(s, x.entry) && !x.audit && !Uncounted(x.entry, p)
              && var e := x.entry;
                 || ActualFee(e, p).None?
                 || (e.task in s.reserved && !s.accounts[e.user.account].frozenSet)
                 || (e.status != SUCCESS && ActualFee(e, p).value < 0 && -ActualFee(e, p).value * p.failRatio >= 1000)
  {
    RowFate(s, x, p);
  }

  // ---------- Audits ----------

  /** What an audited task asks; `counted` replaces the output count when positive. */
  ghost function AuditPrice(apt: Pending, counted: Tokens.uint32): int {
    if apt.feeIn == 0 && apt.feeOut == 0 then apt.fee
    else Min(apt.inTokens * apt.feeIn + (if counted > 0 then counted else apt.outTokens) * apt.feeOut, apt.maxFee)
  }

  lemma AuditIsPriced(apt: Pending, counted: Tokens.uint32)
    ensures BaseFee(apt, counted).Some? ==> BaseFee(apt, counted).value == AuditPrice(apt, counted)
  {
  }

  /** Which second verifiers found the task good. */
  ghost function Passing(results: seq<bool>): set<nat> { set i: nat | i < |results| && results[i] }

  ghost predicate Upheld(ar: AuditRecord, p: Params) { |Passing(ar.results)| >= p.threshold }

  lemma {:induction false} PassingCounted(results: seq<bool>)
    ensures |Passing(results)| == CountPass(results)
    decreases |results|
  {
    if results != [] {
      var init, r := results[..|results| - 1], results[|results| - 1];
      assert results == init + [r];
      PassingCounted(init);
      CountPassSnoc(init, r);
      PassingSnoc(init, r);
    }
  }

  lemma PassingSnoc(results: seq<bool>, r: bool)
    ensures |Passing(results + [r])| == |Passing(results)| + if r then 1 else 0
  {
    assert Passing(results + [r]) == Passing(results) + if r then {|results|} else {};
  }

  lemma UpheldIsPass(ar: AuditRecord, p: Params)
    ensures Upheld(ar, p) <==> AuditPass(ar, p)
  {
    PassingCounted(ar.results);
  }

  /** The audit passed, but the second verifiers count other output tokens than were settled. */
  ghost predicate FalseCounts(apt: Pending, ar: AuditRecord, p: Params) {
    && Upheld(ar, p) && p.perTokenEnabled && apt.feeOut > 0 && apt.outTokens > 0
    && var median := Tokens.Median(ar.outTokens);
       var tol := Tokens.EffectiveTolerance(apt.outTokens, p.tolerance, p.tolerancePct);
       median > 0 && (apt.outTokens + tol < median || median + tol < apt.outTokens)
  }

  lemma FalseCountsIsFraud(apt: Pending, ar: AuditRecord, p: Params)
    ensures FalseCounts(apt, ar, p) <==> TokenFraud(apt, ar, p)
  {
    UpheldIsPass(ar, p);
  }

  /** Where most of them are decides it: farther off than the tolerance is false, closer to all of them is not. */
  lemma MajorityDecidesCounts(apt: Pending, ar: AuditRecord, lo: nat, hi: nat, p: Params)
    requires Upheld(ar, p) && p.perTokenEnabled && apt.feeOut > 0 && apt.outTokens > 0
    requires 1 <= lo && 2 * Tokens.CountIn(ar.outTokens, lo, hi) > |ar.outTokens|
    requires |ar.outTokens| == 2 ==> ar.outTokens[0] + ar.outTokens[1] < Tokens.TWO_32
    ensures var tol := Tokens.EffectiveTolerance(apt.outTokens, p.tolerance, p.tolerancePct);
            && (apt.outTokens + tol < lo || hi + tol < apt.outTokens ==> FalseCounts(apt, ar, p))
            && (hi - tol <= apt.outTokens <= lo + tol ==> !FalseCounts(apt, ar, p))
  {
    Tokens.MedianRobust(ar.outTokens, lo, hi);
  }

  /** An audited settlement charges as told, or moves nothing. */
  lemma SettleAuditedOutcome(s: State, apt: Pending, asSuccess: bool, override: Tokens.uint32, refused: set<nat>,
                             p: Params)
    requires SettleAudited(s, apt, asSuccess, override, refused, p).Done? && apt.task !in s.fraud
    ensures var v := SettleAudited(s, apt, asSuccess, override, refused, p);
            if !v.settled then Unmoved(s, v.state) && v.state.settled == s.settled
            else
              if asSuccess then PaidAsSuccess(s, v.state, AuditJob(apt), AuditPrice(apt, override), p)
              else PaidAsFailure(s, v.state, AuditJob(apt), AuditPrice(apt, override), p)
    ensures BankPays(s, AuditJob(apt), refused, p) ==> SettleAudited(s, apt, asSuccess, override, refused, p).settled
  {
    if Payable(s, AuditJob(apt)) {
      AuditedOf(s, apt, asSuccess, override, refused, p);
      AuditIsPriced(apt, override);
      var base := BaseFee(apt, override).value;
      if asSuccess {
        ReleaseSuccessOutcome(s, AuditJob(apt), base, refused, p);
      } else {
        ReleaseFailOutcome(s, AuditJob(apt), base, refused, p);
      }
    }
  }

  /** Dropping a pending entry moves nothing. */
  lemma DropOutcome(s: State, s2: State, s3: State, j: Job, fee: int, p: Params)
    requires s3 == s2.(second := s3.second, third := s3.third)
    ensures PaidAsSuccess(s, s2, j, fee, p) ==> PaidAsSuccess(s, s3, j, fee, p)
    ensures PaidAsFailure(s, s2, j, fee, p) ==> PaidAsFailure(s, s3, j, fee, p)
    ensures Unmoved(s, s2) ==> Unmoved(s, s3)
  {
  }

  /** The audit's verdict: a pass charges the task as a success, whatever the first verdict was; a fail
      overturns a success at nobody's cost and confirms a failure. If the payout fails the entry waits. */
  lemma AuditVerdict(s: State, apt: Pending, ar: AuditRecord, refused: set<nat>, p: Params)
    requires Judge(s, apt, ar, false, refused, p).Go? && !apt.third && apt.task !in s.fraud
    requires !FalseCounts(apt, ar, p) && (apt.status == SUCCESS || apt.status == FAIL)
    ensures var s2, j := Judge(s, apt, ar, false, refused, p).state, AuditJob(apt);
            if apt.status == SUCCESS && !Upheld(ar, p) then
              && s2.accounts == s.accounts && s2.reserved == s.reserved && Unmoved(s, s2)
              && apt.task in s2.settled && s2.settled[apt.task].status == TaskFailed
              && apt.task !in s2.second.pending
            else
              || (Unmoved(s, s2) && s2.settled == s.settled && s2.second == s.second && !BankPays(s, j, refused, p))
              || (&& apt.task !in s2.second.pending
                  && if Upheld(ar, p) then PaidAsSuccess(s, s2, j, AuditPrice(apt, 0), p)
                     else PaidAsFailure(s, s2, j, AuditPrice(apt, 0), p))
  {
    UpheldIsPass(ar, p);
    FalseCountsIsFraud(apt, ar, p);
    var s1, s2 := CountJudgment(s, apt.task), Judge(s, apt, ar, false, refused, p).state;
    if apt.status == SUCCESS && !AuditPass(ar, p) {
    } else {
      var v := SettleAudited(s1, apt, AuditPass(ar, p), 0, refused, p);
      SettleAuditedEffect(s1, apt, AuditPass(ar, p), 0, refused, p);
      SettleAuditedOutcome(s1, apt, AuditPass(ar, p), 0, refused, p);
      assert SettleByAudit(s1, apt, ar, refused, p) == Go(s2);
      if v.settled { CountedOutcome(s, v.state, s2, apt, p); }
    }
  }

  lemma CountedOutcome(s: State, s1: State, s2: State, apt: Pending, p: Params)
    requires s2 == s1.(second := s2.second)
    ensures var c, j, base := CountJudgment(s, apt.task), AuditJob(apt), AuditPrice(apt, 0);
            && (PaidAsSuccess(c, s1, j, base, p) ==> PaidAsSuccess(s, s2, j, base, p))
            && (PaidAsFailure(c, s1, j, base, p) ==> PaidAsFailure(s, s2, j, base, p))
  {
  }

  /** A timeout charges by the first verdict, or in the third tier by the audit's, or closes the task as failed
      at nobody's cost. Either way the entry is gone. */
  lemma TimeoutOutcome(s: State, apt: Pending, key: TimeoutKey, third: bool, refused: set<nat>, p: Params)
    requires Finish(s, apt, key, third, refused, p).Go? && apt.task !in s.fraud
    ensures var s2, j := Finish(s, apt, key, third, refused, p).state, AuditJob(apt);
            && apt.task !in TierOf(s2, third).pending
            && (|| (&& Unmoved(s, s2) && apt.task in s2.settled && s2.settled[apt.task].status == TaskFailed
                    && !BankPays(s, j, refused, p))
                || (if (if third && apt.task in s.audits then Upheld(s.audits[apt.task], p) else apt.status == SUCCESS)
                    then PaidAsSuccess(s, s2, j, AuditPrice(apt, 0), p)
                    else PaidAsFailure(s, s2, j, AuditPrice(apt, 0), p)))
  {
    if apt.task in s.audits { UpheldIsPass(s.audits[apt.task], p); }
    var asSuccess := TimeoutSuccess(s, apt, third, p);
    var v := SettleAudited(s, apt, asSuccess, 0, refused, p);
    SettleAuditedOutcome(s, apt, asSuccess, 0, refused, p);
    var s2 := CloseOut(v.state, v.settled, apt, key, third);
    if v.settled { DropOutcome(s, v.state, s2, AuditJob(apt), AuditPrice(apt, 0), p); }
  }

  /** False token counts are never paid for: the worker gets nothing, and the user is charged the fail
      ratio of the fee for the second verifiers' count, or nothing. */
  lemma TokenFraudOutcome(s: State, apt: Pending, ar: AuditRecord, refused: set<nat>, p: Params)
    requires Judge(s, apt, ar, false, refused, p).Go? && !apt.third && apt.task !in s.fraud && FalseCounts(apt, ar, p)
    ensures var s2, fee := Judge(s, apt, ar, false, refused, p).state, AuditPrice(apt, Tokens.Median(ar.outTokens));
            && apt.task !in s2.second.pending
            && (|| (&& Unmoved(s, s2) && apt.task in s2.settled && s2.settled[apt.task].status == TaskFailed
                    && !BankPays(s, AuditJob(apt), refused, p))
                || PaidAsFailure(s, s2, AuditJob(apt), fee, p))
  {
    FalseCountsIsFraud(apt, ar, p);
    var s1, median := CountJudgment(s, apt.task), Tokens.Median(ar.outTokens);
    var s2 := if apt.user.Bech32? then Unfreeze(s1, apt.user.account, apt.task) else s1;
    var s4 := Overturn(s2, apt);
    var v := SettleAudited(s4, apt, false, median, refused, p);
    SettleAuditedEffect(s4, apt, false, median, refused, p);
    SettleAuditedOutcome(s4, apt, false, median, refused, p);
    OverturnedOutcome(s, s2, s4, v.state, apt, median, p);
  }

  /** Counting, releasing and recording the failure first does not change who pays. */
  lemma OverturnedOutcome(s: State, s2: State, s4: State, s5: State, apt: Pending, median: Tokens.uint32, p: Params)
    requires s4 == Overturn(s2, apt)
    requires var s1 := CountJudgment(s, apt.task);
             s2 == if apt.user.Bech32? then Unfreeze(s1, apt.user.account, apt.task) else s1
    ensures Unmoved(s4, s5) ==> Unmoved(s, s5)
    ensures PaidAsFailure(s4, s5, AuditJob(apt), AuditPrice(apt, median), p) ==>
              PaidAsFailure(s, s5, AuditJob(apt), AuditPrice(apt, median), p)
  {
    if apt.user.Bech32? { ReleaseMovesNothing(CountJudgment(s, apt.task), apt.user.account, apt.task); }
  }

  // ---------- Results and escalation ----------

  /** The checks a second verifier's result has to pass. */
  ghost predicate Admits(s: State, m: AuditInput, p: Params) {
    && m.authentic && m.verifier.Bech32? && m.task in s.second.pending
    && var apt := s.second.pending[m.task];
       && (apt.expire <= 0 || s.height <= apt.expire) && m.verifier !in apt.verifiers
       && (m.task in s.audits ==>
             |s.audits[m.task].verifiers| < p.secondVerifiers && m.verifier !in s.audits[m.task].verifiers)
  }

  /** The result is added to those of the task, each of its parts to the list it belongs to. */
  ghost predicate Adds(was: Option<AuditRecord>, ar: AuditRecord, m: AuditInput, height: int) {
    var n := if was.None? then 0 else |was.value.verifiers|;
    && |ar.verifiers| == n + 1 && ar.verifiers[n] == m.verifier && ar.processedAt == height
    && (was.Some? ==> ar.verifiers[..n] == was.value.verifiers)
    && ar.results == (if was.None? then [] else was.value.results) + [m.pass]
    && ar.inTokens == (if was.None? then [] else was.value.inTokens) + [m.inTokens]
    && ar.outTokens == (if was.None? then [] else was.value.outTokens) + [m.outTokens]
  }

  /** A result that passes the checks is added, and judged with the others once there are enough; any other
      changes nothing. */
  lemma ResultFate(s: State, m: AuditInput, p: Params)
    requires AuditResult(s, m, p).Go?
    ensures var s2 := AuditResult(s, m, p).state;
            if !Admits(s, m, p) then s2 == s
            else
              && m.task in s2.audits && s2.audits == s.audits[m.task := s2.audits[m.task]]
              && Adds(if m.task in s.audits then Some(s.audits[m.task]) else None, s2.audits[m.task], m, s.height)
              && var s1, ar := s.(audits := s2.audits), s2.audits[m.task];
                 if |ar.results| < p.secondVerifiers then s2 == s1
                 else Judge(s1, s.second.pending[m.task], ar, m.escalate, m.refused, p) == Go(s2)
  {
    assert Admits(s, m, p) <==> !AuditRejected(s, m, p);
    if Admits(s, m, p) {
      var was := if m.task in s.audits then s.audits[m.task] else AuditRecord([], [], [], [], 0);
      var ar := Extend(was, m, s.height);
      var s1 := s.(audits := s.audits[m.task := ar]);
      if |ar.results| >= p.secondVerifiers {
        JudgeEffect(s1, s.second.pending[m.task], ar, m.escalate, m.refused, p);
      }
    }
  }

  /** An escalated task waits in the third tier from now on, otherwise unchanged, and nothing moves. */
  lemma Escalation(s: State, apt: Pending, ar: AuditRecord, refused: set<nat>, p: Params)
    requires !apt.third
    ensures var f := Judge(s, apt, ar, true, refused, p);
            && f.Go? && f.state.bank == s.bank && f.state.accounts == s.accounts && f.state.reserved == s.reserved
            && f.state.settled == s.settled && apt.task !in f.state.second.pending
            && apt.task in f.state.third.pending && (s.height, apt.task) in f.state.third.index
            && f.state.third.pending[apt.task] == apt.(submittedAt := s.height, third := true)
            && (forall t :: t != apt.task ==>
                  && (t in f.state.second.pending <==> t in s.second.pending)
                  && (t in f.state.third.pending <==> t in s.third.pending))
  {
  }
}
