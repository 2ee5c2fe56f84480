/** Reservations: as long as every charge is backed by a live reservation of the same user, FrozenBalance is
    the sum of the live reservations and within the balance, no release clamps and no charge falls short
    (x/settlement/keeper/keeper.go:1009-1195, 1840-1930, 2027-2203, 2596-2733). */
module Underwriting {
  import opened Sums
  import opened FeeSplit
  import opened Ledger
  import opened Effects
  import opened Runs
  import opened Books

  // ---------- What a settlement does to accounts and reservations ----------

  /** The user is debited `asked`, or what is there if that is less. */
  ghost predicate Debited(s: State, s2: State, j: Job, asked: int) {
    && Known(s, j)
    && var u, a := j.user.account, s.accounts[j.user.account];
       && s2.accounts == s.accounts[u := a.(balance := a.balance - Min(asked, a.balance))]
       && s2.reserved == s.reserved && s2.hist.owner == s.hist.owner
       && s2.hist.owned == s.hist.owned && s2.hist.clamps == s.hist.clamps
       && s2.hist.covered == (s.hist.covered && asked <= a.balance - a.frozen)
       && s2.hist.shortfalls == s.hist.shortfalls + if a.balance < asked then 1 else 0
  }

  /** Accounts, reservations and what is recorded about them are the same. */
  ghost predicate Unaltered(s: State, s2: State) {
    && s2.accounts == s.accounts && s2.reserved == s.reserved && s2.hist.owner == s.hist.owner
    && s2.hist.owned == s.hist.owned && s2.hist.clamps == s.hist.clamps
    && s2.hist.covered == s.hist.covered && s2.hist.shortfalls == s.hist.shortfalls
  }

  /** The task's reservation is released and, if `debits`, its user is debited. */
  ghost predicate Settlement(s: State, s2: State, j: Job, asked: int, debits: bool) {
    && Known(s, j)
    && var s1 := Unfreeze(s, j.user.account, j.task);
       if debits then Debited(s1, s2, j, asked) else Unaltered(s1, s2)
  }

  ghost predicate Known(s: State, j: Job) { j.user.Bech32? && j.user.account in s.accounts }

  ghost predicate Debits(s: State, s2: State, t: TaskId) {
    Get(s2.hist.charges, t) > Get(s.hist.charges, t)
  }

  /** What is asked of the user for a task with this fee. */
  function Asks(fee: Option<int>, asSuccess: bool, p: Params): int {
    if fee.None? then 0
    else if asSuccess then fee.value
    else if FailFee(fee.value, p).Some? then FailFee(fee.value, p).value else 0
  }

  function RowAsks(e: Entry, p: Params): int { Asks(ActualFee(e, p), e.status == SUCCESS, p) }

  function AuditAsks(apt: Pending, asSuccess: bool, override: Tokens.uint32, p: Params): int {
    Asks(BaseFee(apt, override), asSuccess, p)
  }

  lemma ChargeDebits(s: State, j: Job, asked: int, paid: int, ps: seq<Payout>, share: nat, status: TaskStatus,
                     refused: set<nat>)
    requires Payable(s, j) && paid == Min(asked, Balance(s, j))
    requires Charge(s, j, asked, paid, ps, share, status, refused).Some?
    ensures var s2 := Charge(s, j, asked, paid, ps, share, status, refused).value;
            Debited(s, s2, j, asked) && Debits(s, s2, j.task)
  {
  }

  lemma SuccessDebits(s: State, j: Job, fee: int, refused: set<nat>, p: Params)
    requires Payable(s, j) && PaySuccess(s, j, fee, refused, p).Some?
    ensures var s2 := PaySuccess(s, j, fee, refused, p).value; Debited(s, s2, j, fee) && Debits(s, s2, j.task)
  {
    var paid := Min(fee, Balance(s, j));
    if paid <= 0 {
      ChargeDebits(s, j, fee, paid, [], 0, TaskSettled, refused);
    } else {
      ChargeDebits(s, j, fee, paid, SuccessPayouts(paid, j.worker.account, j.verifiers, p.ratios),
                   WorkerShare(paid, j.verifiers, p.ratios), TaskSettled, refused);
    }
  }

  lemma FailDebits(s: State, j: Job, failFee: nat, refused: set<nat>, p: Params)
    requires Payable(s, j) && PayFail(s, j, failFee, refused, p).Some?
    ensures var s2 := PayFail(s, j, failFee, refused, p).value; Debited(s, s2, j, failFee) && Debits(s, s2, j.task)
  {
  }

  lemma PerTokenDebits(s: State, j: Job, failFee: nat, refused: set<nat>, p: Params)
    requires Payable(s, j)
    ensures var s2 := PayFailPerToken(s, j, failFee, refused, p);
            if Debits(s, s2, j.task) then Debited(s, s2, j, failFee) else Unaltered(s, s2)
  {
    if failFee != 0 && Balance(s, j) >= failFee && PayFail(s, j, failFee, refused, p).Some? {
      FailDebits(s, j, failFee, refused, p);
    }
  }

  lemma RowSettlement(s: State, x: EntryInput, p: Params)
    requires SettleEntry(s, x, p).Go? && SettledNow(s, x, p)
    ensures var s2 := SettleEntry(s, x, p).state;
            Settlement(s, s2, JobOf(x.entry), RowAsks(x.entry, p), Debits(s, s2, x.entry.task))
  {
    var e, j, fee := x.entry, JobOf(x.entry), ActualFee(x.entry, p).value;
    var s1 := Unfreeze(s, e.user.account, e.task);
    if e.status == SUCCESS {
      if PaySuccess(s1, j, fee, x.refused, p).Some? { SuccessDebits(s1, j, fee, x.refused, p); }
    } else {
      var failFee := FailFee(fee, p).value;
      if IsPerToken(e) {
        PerTokenDebits(s1, j, failFee, x.refused, p);
      } else if PayFail(s1, j, failFee, x.refused, p).Some? {
        FailDebits(s1, j, failFee, x.refused, p);
      }
    }
  }

  lemma AuditedSettlement(s: State, apt: Pending, asSuccess: bool, override: Tokens.uint32, refused: set<nat>,
                          p: Params)
    requires SettleAudited(s, apt, asSuccess, override, refused, p).Done?
    ensures var s2 := SettleAudited(s, apt, asSuccess, override, refused, p).state;
            if apt.task in s.fraud || !Payable(s, AuditJob(apt)) then s2 == s
            else Settlement(s, s2, AuditJob(apt), AuditAsks(apt, asSuccess, override, p), Debits(s, s2, apt.task))
  {
    if apt.task !in s.fraud && Payable(s, AuditJob(apt)) {
      var j, base := AuditJob(apt), BaseFee(apt, override).value;
      var s1 := Unfreeze(s, apt.user.account, apt.task);
      if asSuccess {
        if PaySuccess(s1, j, base, refused, p).Some? { SuccessDebits(s1, j, base, refused, p); }
      } else if PayFail(s1, j, FailFee(base, p).value, refused, p).Some? {
        FailDebits(s1, j, FailFee(base, p).value, refused, p);
      }
    }
  }

  lemma TokenFraudSettlement(s: State, apt: Pending, ar: AuditRecord, refused: set<nat>, p: Params)
    requires SettleTokenFraud(s, apt, ar, refused, p).Go? && Known(s, AuditJob(apt))
    ensures var s2 := SettleTokenFraud(s, apt, ar, refused, p).state;
            var asked := AuditAsks(apt, false, Tokens.Median(ar.outTokens), p);
            Settlement(s, s2, AuditJob(apt), asked, Debits(s, s2, apt.task))
  {
    var s1 := Unfreeze(s, apt.user.account, apt.task);
    var s3 := Overturn(s1, apt);
    AuditedSettlement(s3, apt, false, Tokens.Median(ar.outTokens), refused, p);
    assert Unfreeze(s3, apt.user.account, apt.task) == s3;
  }

  // ---------- One backed settlement ----------

  /** The reservation, if any, is the user's own, and a debit of anything is within it. */
  ghost predicate Backed(s: State, s2: State, j: Job, asked: int) {
    && j.user.Bech32? && (j.task in s.reserved ==> j.task in s.hist.owner && s.hist.owner[j.task] == j.user.account)
    && (asked > 0 && Debits(s, s2, j.task) ==> j.task in s.reserved && asked <= s.reserved[j.task])
  }

  /** Nothing has gone wrong with reservations so far. */
  ghost predicate Sound(s: State) {
    Underwritten(s) && s.hist.owned && s.hist.covered && s.hist.clamps == 0 && s.hist.shortfalls == 0
  }

  /** What a user has reserved for a task is there when it is released. */
  lemma OwnRelease(s: State, u: nat, t: TaskId)
    requires Underwritten(s) && u in s.accounts && (t in s.reserved ==> s.hist.owner[t] == u)
    ensures var s1 := Unfreeze(s, u, t);
            && Underwritten(s1) && s1.hist.owned == s.hist.owned && s1.hist.clamps == s.hist.clamps
            && s1.accounts[u].balance == s.accounts[u].balance
            && (t in s.reserved ==> s.reserved[t] <= s1.accounts[u].balance - s1.accounts[u].frozen)
  {
    UnfreezeSummed(s, u, t);
    if t in s.reserved { ReservedIsFrozen(s, u, t); }
  }

  lemma ReservedIsFrozen(s: State, u: nat, t: TaskId)
    requires Summed(s) && u in s.accounts && t in s.reserved && s.hist.owner[t] == u
    ensures s.reserved[t] <= s.accounts[u].frozen
  {
    TotalAtLeast(HeldBy(s.reserved, s.hist.owner, u), t);
  }

  lemma SameSums(s: State, s2: State)
    requires s2.accounts == s.accounts && s2.reserved == s.reserved && s2.hist.owner == s.hist.owner
    ensures (Summed(s2) <==> Summed(s)) && (Underwritten(s2) <==> Underwritten(s))
  {
  }

  /** A backed settlement goes wrong in nothing, and a debit is paid in full. */
  lemma ReservedFeeIsPaidInFull(s: State, s2: State, j: Job, asked: int)
    requires Settlement(s, s2, j, asked, Debits(s, s2, j.task)) && Backed(s, s2, j, asked)
    ensures Sound(s) ==> Sound(s2)
    ensures Underwritten(s) ==>
              var u := j.user.account;
              && Underwritten(s2)
              && s2.accounts[u].balance ==
                   s.accounts[u].balance - if Debits(s, s2, j.task) then asked else 0
  {
    if Underwritten(s) {
      var u, s1 := j.user.account, Unfreeze(s, j.user.account, j.task);
      OwnRelease(s, u, j.task);
      if Debits(s, s2, j.task) {
        var a := s1.accounts[u];
        assert asked <= a.balance - a.frozen;
        DebitUnderwritten(s1, s2, j, asked);
      } else {
        SameSums(s1, s2);
      }
    }
  }

  lemma DebitUnderwritten(s: State, s2: State, j: Job, asked: int)
    requires Debited(s, s2, j, asked) && Underwritten(s)
    ensures var a := s.accounts[j.user.account]; Underwritten(s2) <==> asked <= Available(a) || a.frozen == 0
  {
    var a := s.accounts[j.user.account];
    var j2 := j.(worker := j.user);
    ChargeUnderwritten(s, j2, asked, Min(asked, a.balance), s2);
  }

  /** A reservation of the fee, or of MaxFee for per-token billing, backs whatever a row asks. */
  lemma FeeBacksRow(e: Entry, p: Params)
    ensures var most := if IsPerToken(e) then e.maxFee.amount else e.fee.amount;
            RowAsks(e, p) <= most || RowAsks(e, p) <= 0
  {
    if ActualFee(e, p).Some? { FailFeeAtMost(ActualFee(e, p).value, p); }
  }

  /** And whatever is asked after an audit, a timeout or a ruling on token counts. */
  lemma FeeBacksAudit(apt: Pending, asSuccess: bool, override: Tokens.uint32, p: Params)
    ensures var most := if apt.feeIn == 0 && apt.feeOut == 0 then apt.fee else apt.maxFee;
            AuditAsks(apt, asSuccess, override, p) <= most || AuditAsks(apt, asSuccess, override, p) <= 0
  {
    if BaseFee(apt, override).Some? { FailFeeAtMost(BaseFee(apt, override).value, p); }
  }

  lemma FailFeeAtMost(fee: int, p: Params)
    ensures FailFee(fee, p).Some? ==> FailFee(fee, p).value <= fee || FailFee(fee, p).value == 0
  {
    if fee >= 0 { MulMonotone(p.failRatio, 1000, fee); }
  }

  // ---------- Exactly when a settlement keeps the books straight ----------

  /** A release for someone else leaves the reserving user's frozen balance above the reservations. */
  lemma ForeignRelease(s: State, s2: State, u: nat, t: TaskId)
    requires Summed(s) && t in s.reserved && s.hist.owner[t] != u
    requires s2.reserved == s.reserved - {t} && s2.hist.owner == s.hist.owner - {t}
    requires forall v :: v in s.accounts && v != u ==> v in s2.accounts && s2.accounts[v] == s.accounts[v]
    ensures !Summed(s2)
  {
    var v := s.hist.owner[t];
    HeldByDrop(s.reserved, s.hist.owner, t, v);
    TotalDrop(HeldBy(s.reserved, s.hist.owner, v), t);
    assert Get(HeldBy(s.reserved, s.hist.owner, v), t) == s.reserved[t];
    assert s2.accounts[v].frozen > Total(HeldBy(s2.reserved, s2.hist.owner, v));
  }

  /** A release keeps them straight exactly when it is for the user who reserved. */
  lemma ReleaseUnderwrittenExact(s: State, u: nat, t: TaskId)
    requires Underwritten(s) && t in s.reserved && u in s.accounts
    ensures Underwritten(Unfreeze(s, u, t)) <==> s.hist.owner[t] == u
  {
    if s.hist.owner[t] == u { OwnRelease(s, u, t); } else { ForeignRelease(s, Unfreeze(s, u, t), u, t); }
  }

  /** Any settlement, of a row or after an audit, as success or failure: the reservation must be the
      user's own, and a debit must fit what is then not frozen, or nothing else may be frozen. */
  lemma SettlementUnderwrittenExact(s: State, s2: State, j: Job, asked: int)
    requires Underwritten(s) && Settlement(s, s2, j, asked, Debits(s, s2, j.task))
    ensures var a := Unfreeze(s, j.user.account, j.task).accounts[j.user.account];
            Underwritten(s2) <==>
              && (j.task in s.reserved ==> s.hist.owner[j.task] == j.user.account)
              && (Debits(s, s2, j.task) ==> asked <= Available(a) || a.frozen == 0)
  {
    var u, s1 := j.user.account, Unfreeze(s, j.user.account, j.task);
    if j.task in s.reserved && s.hist.owner[j.task] != u {
      ForeignRelease(s, s2, u, j.task);
    } else {
      OwnRelease(s, u, j.task);
      if Debits(s, s2, j.task) { DebitUnderwritten(s1, s2, j, asked); } else { SameSums(s1, s2); }
    }
  }

  // ---------- Backed steps ----------

  /** What a reservation is held against: what is asked, or simply the fee (MaxFee for per-token billing). */
  datatype Measure = ByCharge | ByFee

  function RowNeeds(e: Entry, p: Params, w: Measure): int {
    if w.ByCharge? then RowAsks(e, p) else if IsPerToken(e) then e.maxFee.amount else e.fee.amount
  }

  function AuditNeeds(apt: Pending, asSuccess: bool, override: Tokens.uint32, p: Params, w: Measure): int {
    if w.ByCharge? then AuditAsks(apt, asSuccess, override, p)
    else if apt.feeIn == 0 && apt.feeOut == 0 then apt.fee else apt.maxFee
  }

  /** Backed for more is backed for less. */
  lemma BackedForLess(s: State, s2: State, j: Job, needs: int, asked: int)
    requires Backed(s, s2, j, needs) && (asked <= needs || asked <= 0)
    ensures Backed(s, s2, j, asked)
  {
  }

  ghost predicate RowBacked(s: State, x: EntryInput, p: Params, w: Measure) {
    SettleEntry(s, x, p).Go? && SettledNow(s, x, p) ==>
      Backed(s, SettleEntry(s, x, p).state, JobOf(x.entry), RowNeeds(x.entry, p, w))
  }

  /** An audited settlement that goes ahead, taking the ledger from `s` to `s2`, is backed. */
  ghost predicate AuditBacked(s: State, s2: State, apt: Pending, asSuccess: bool, p: Params, w: Measure) {
    apt.task !in s.fraud && Payable(s, AuditJob(apt)) ==>
      Backed(s, s2, AuditJob(apt), AuditNeeds(apt, asSuccess, 0, p, w))
  }

  ghost predicate JudgeBacked(s: State, apt: Pending, ar: AuditRecord, escalate: bool, refused: set<nat>,
                              p: Params, w: Measure)
  {
    Judge(s, apt, ar, escalate, refused, p).Go? && !apt.third && !escalate ==>
      var s2 := Judge(s, apt, ar, escalate, refused, p).state;
      if TokenFraud(apt, ar, p) then
        Known(s, AuditJob(apt)) ==>
          Backed(s, s2, AuditJob(apt), AuditNeeds(apt, false, Tokens.Median(ar.outTokens), p, w))
      else if apt.status == SUCCESS && !AuditPass(ar, p) then true
      else AuditBacked(s, s2, apt, AuditPass(ar, p) && (apt.status == SUCCESS || apt.status == FAIL), p, w)
  }

  ghost predicate ResultBacked(s: State, m: AuditInput, p: Params, w: Measure) {
    !AuditRejected(s, m, p) ==>
      var was := if m.task in s.audits then s.audits[m.task] else AuditRecord([], [], [], [], 0);
      var ar := Extend(was, m, s.height);
      |ar.results| >= p.secondVerifiers ==>
        JudgeBacked(s.(audits := s.audits[m.task := ar]), s.second.pending[m.task], ar, m.escalate, m.refused, p, w)
  }

  ghost predicate FinishBacked(s: State, apt: Pending, key: TimeoutKey, third: bool, refused: set<nat>,
                               p: Params, w: Measure)
  {
    Finish(s, apt, key, third, refused, p).Go? ==>
      AuditBacked(s, Finish(s, apt, key, third, refused, p).state, apt, TimeoutSuccess(s, apt, third, p), p, w)
  }

  ghost predicate RowsBacked(s: State, xs: seq<EntryInput>, p: Params, w: Measure)
    decreases |xs|
  {
    xs != [] ==>
      RowBacked(s, xs[0], p, w) &&
      (SettleEntry(s, xs[0], p).Go? ==> RowsBacked(SettleEntry(s, xs[0], p).state, xs[1..], p, w))
  }

  ghost predicate ResultsBacked(s: State, ms: seq<AuditInput>, p: Params, w: Measure)
    decreases |ms|
  {
    ms != [] ==>
      ResultBacked(s, ms[0], p, w) &&
      (AuditResult(s, ms[0], p).Go? ==> ResultsBacked(AuditResult(s, ms[0], p).state, ms[1..], p, w))
  }

  ghost predicate SweepBacked(s: State, apts: seq<Pending>, keys: seq<TimeoutKey>, third: bool, refused: set<nat>,
                              p: Params, w: Measure)
    requires |apts| <= |keys|
    decreases |apts|
  {
    apts != [] ==>
      FinishBacked(s, apts[0], keys[0], third, refused, p, w) &&
      (Finish(s, apts[0], keys[0], third, refused, p).Go? ==>
         SweepBacked(Finish(s, apts[0], keys[0], third, refused, p).state, apts[1..], keys[1..], third, refused, p, w))
  }

  ghost predicate TimeoutsBacked(s: State, keys: seq<TimeoutKey>, third: bool, refused: set<nat>,
                                 p: Params, w: Measure)
  {
    s.height > (if third then p.thirdTimeout else p.secondTimeout) ==>
      SweepBacked(s, Collect(TierOf(s, third).pending, keys), keys, third, refused, p, w)
  }

  ghost predicate BlockBacked(s: State, scan2: seq<TimeoutKey>, scan3: seq<TimeoutKey>, refused: set<nat>,
                              p: Params, w: Measure)
  {
    && TimeoutsBacked(Cleanup(s, p), scan2, false, refused, p, w)
    && (Timeouts(Cleanup(s, p), scan2, false, refused, p).Go? ==>
          TimeoutsBacked(Timeouts(Cleanup(s, p), scan2, false, refused, p).state, scan3, true, refused, p, w))
  }

  /** Whatever the step charges is backed by a live reservation at that moment. */
  ghost predicate StepBacked(s: State, step: Step, p: Params, w: Measure) {
    match step
    case SettleStep(header, rows) => header && SettleAll(s, rows, p).Go? ==> RowsBacked(s, rows, p, w)
    case AuditStep(results) => AuditAll(s, results, p).Go? ==> ResultsBacked(s, results, p, w)
    case EndBlockStep(scan2, scan3, refused) =>
      EndBlock(s, scan2, scan3, refused, p).Go? ==> BlockBacked(s, scan2, scan3, refused, p, w)
    case _ => true
  }

  ghost predicate BackedRun(s: State, steps: seq<Step>, p: Params, w: Measure)
    decreases |steps|
  {
    steps == [] || (StepBacked(s, steps[0], p, w) && BackedRun(Apply(s, steps[0], p), steps[1..], p, w))
  }

  // ---------- Backed steps keep everything sound ----------

  lemma UnalteredSound(s: State, s2: State)
    requires Unaltered(s, s2)
    ensures Sound(s) <==> Sound(s2)
  {
    SameSums(s, s2);
  }

  lemma RowSound(s: State, x: EntryInput, p: Params, w: Measure)
    requires Sound(s) && SettleEntry(s, x, p).Go? && RowBacked(s, x, p, w)
    ensures Sound(SettleEntry(s, x, p).state)
  {
    var s2 := SettleEntry(s, x, p).state;
    if SettledNow(s, x, p) {
      RowSettlement(s, x, p);
      FeeBacksRow(x.entry, p);
      BackedForLess(s, s2, JobOf(x.entry), RowNeeds(x.entry, p, w), RowAsks(x.entry, p));
      ReservedFeeIsPaidInFull(s, s2, JobOf(x.entry), RowAsks(x.entry, p));
    } else {
      UnalteredSound(s, s2);
    }
  }

  lemma {:induction false} RowsSound(s: State, xs: seq<EntryInput>, p: Params, w: Measure)
    requires Sound(s) && SettleAll(s, xs, p).Go? && RowsBacked(s, xs, p, w)
    ensures Sound(SettleAll(s, xs, p).state)
    decreases |xs|
  {
    if xs != [] {
      RowSound(s, xs[0], p, w);
      RowsSound(SettleEntry(s, xs[0], p).state, xs[1..], p, w);
    }
  }

  /** Settling after an audit; `s2` may differ from what the settlement left in records and tiers. */
  lemma AuditedSound(s: State, s2: State, apt: Pending, asSuccess: bool, refused: set<nat>, p: Params, w: Measure)
    requires Sound(s) && SettleAudited(s, apt, asSuccess, 0, refused, p).Done?
    requires var s1 := SettleAudited(s, apt, asSuccess, 0, refused, p).state;
             Unaltered(s1, s2) && s2.hist.charges == s1.hist.charges
    requires AuditBacked(s, s2, apt, asSuccess, p, w)
    ensures Sound(s2)
  {
    var s1 := SettleAudited(s, apt, asSuccess, 0, refused, p).state;
    AuditedSettlement(s, apt, asSuccess, 0, refused, p);
    if apt.task !in s.fraud && Payable(s, AuditJob(apt)) {
      FeeBacksAudit(apt, asSuccess, 0, p);
      BackedForLess(s, s1, AuditJob(apt), AuditNeeds(apt, asSuccess, 0, p, w), AuditAsks(apt, asSuccess, 0, p));
      ReservedFeeIsPaidInFull(s, s1, AuditJob(apt), AuditAsks(apt, asSuccess, 0, p));
    }
    UnalteredSound(s1, s2);
  }

  lemma TokenFraudSound(s: State, apt: Pending, ar: AuditRecord, refused: set<nat>, p: Params, w: Measure)
    requires Sound(s) && SettleTokenFraud(s, apt, ar, refused, p).Go?
    requires Known(s, AuditJob(apt)) ==>
               Backed(s, SettleTokenFraud(s, apt, ar, refused, p).state, AuditJob(apt),
                      AuditNeeds(apt, false, Tokens.Median(ar.outTokens), p, w))
    ensures Sound(SettleTokenFraud(s, apt, ar, refused, p).state)
  {
    var s2 := SettleTokenFraud(s, apt, ar, refused, p).state;
    if Known(s, AuditJob(apt)) {
      var median := Tokens.Median(ar.outTokens);
      TokenFraudSettlement(s, apt, ar, refused, p);
      FeeBacksAudit(apt, false, median, p);
      BackedForLess(s, s2, AuditJob(apt), AuditNeeds(apt, false, median, p, w), AuditAsks(apt, false, median, p));
      ReservedFeeIsPaidInFull(s, s2, AuditJob(apt), AuditAsks(apt, false, median, p));
    } else {
      UnalteredSound(s, s2);
    }
  }

  lemma SettleByAuditUnaltered(s: State, apt: Pending, ar: AuditRecord, refused: set<nat>, p: Params)
    requires SettleByAudit(s, apt, ar, refused, p).Go?
    ensures var asSuccess := AuditPass(ar, p) && (apt.status == SUCCESS || apt.status == FAIL);
            var v, s2 := SettleAudited(s, apt, asSuccess, 0, refused, p), SettleByAudit(s, apt, ar, refused, p).state;
            v.Done? && Unaltered(v.state, s2) && s2.hist.charges == v.state.hist.charges
  {
  }

  lemma SettleByAuditSound(s: State, s2: State, apt: Pending, ar: AuditRecord, refused: set<nat>, p: Params, w: Measure)
    requires Sound(s) && SettleByAudit(s, apt, ar, refused, p) == Go(s2)
    requires AuditBacked(s, s2, apt, AuditPass(ar, p) && (apt.status == SUCCESS || apt.status == FAIL), p, w)
    ensures Sound(s2)
  {
    SettleByAuditUnaltered(s, apt, ar, refused, p);
    AuditedSound(s, s2, apt, AuditPass(ar, p) && (apt.status == SUCCESS || apt.status == FAIL), refused, p, w);
  }

  /** Counting the judgment first makes no difference. */
  lemma CountedBacked(s: State, s2: State, apt: Pending, asSuccess: bool, override: Tokens.uint32, t: TaskId,
                      p: Params, w: Measure)
    ensures var j, s1, asked := AuditJob(apt), CountJudgment(s, t), AuditNeeds(apt, asSuccess, override, p, w);
            && (Known(s, j) <==> Known(s1, j)) && (Backed(s, s2, j, asked) <==> Backed(s1, s2, j, asked))
            && (AuditBacked(s, s2, apt, asSuccess, p, w) <==> AuditBacked(s1, s2, apt, asSuccess, p, w))
  {
  }

  lemma JudgeSound(s0: State, apt: Pending, ar: AuditRecord, escalate: bool, refused: set<nat>, p: Params, w: Measure)
    requires Sound(s0) && Judge(s0, apt, ar, escalate, refused, p).Go?
    requires JudgeBacked(s0, apt, ar, escalate, refused, p, w)
    ensures Sound(Judge(s0, apt, ar, escalate, refused, p).state)
  {
    var s, s2 := CountJudgment(s0, apt.task), Judge(s0, apt, ar, escalate, refused, p).state;
    UnalteredSound(s0, s);
    if apt.third || escalate {
      UnalteredSound(s, s2);
    } else if TokenFraud(apt, ar, p) {
      CountedBacked(s0, s2, apt, false, Tokens.Median(ar.outTokens), apt.task, p, w);
      TokenFraudSound(s, apt, ar, refused, p, w);
    } else if apt.status == SUCCESS && !AuditPass(ar, p) {
      UnalteredSound(s, s2);
    } else {
      CountedBacked(s0, s2, apt, AuditPass(ar, p) && (apt.status == SUCCESS || apt.status == FAIL), 0, apt.task, p, w);
      SettleByAuditSound(s, s2, apt, ar, refused, p, w);
    }
  }

  lemma ResultSound(s: State, m: AuditInput, p: Params, w: Measure)
    requires Sound(s) && AuditResult(s, m, p).Go? && ResultBacked(s, m, p, w)
    ensures Sound(AuditResult(s, m, p).state)
  {
    if !AuditRejected(s, m, p) {
      var was := if m.task in s.audits then s.audits[m.task] else AuditRecord([], [], [], [], 0);
      var ar := Extend(was, m, s.height);
      var s1 := s.(audits := s.audits[m.task := ar]);
      UnalteredSound(s, s1);
      if |ar.results| >= p.secondVerifiers {
        JudgeSound(s1, s.second.pending[m.task], ar, m.escalate, m.refused, p, w);
      }
    }
  }

  lemma {:induction false} ResultsSound(s: State, ms: seq<AuditInput>, p: Params, w: Measure)
    requires Sound(s) && AuditAll(s, ms, p).Go? && ResultsBacked(s, ms, p, w)
    ensures Sound(AuditAll(s, ms, p).state)
    decreases |ms|
  {
    if ms != [] {
      ResultSound(s, ms[0], p, w);
      ResultsSound(AuditResult(s, ms[0], p).state, ms[1..], p, w);
    }
  }

  lemma FinishSound(s: State, apt: Pending, key: TimeoutKey, third: bool, refused: set<nat>, p: Params, w: Measure)
    requires Sound(s) && Finish(s, apt, key, third, refused, p).Go? && FinishBacked(s, apt, key, third, refused, p, w)
    ensures Sound(Finish(s, apt, key, third, refused, p).state)
  {
    var v := SettleAudited(s, apt, TimeoutSuccess(s, apt, third, p), 0, refused, p);
    var s2 := CloseOut(v.state, v.settled, apt, key, third);
    assert Unaltered(v.state, s2) && s2.hist.charges == v.state.hist.charges;
    AuditedSound(s, s2, apt, TimeoutSuccess(s, apt, third, p), refused, p, w);
  }

  lemma {:induction false} SweepSound(s: State, apts: seq<Pending>, keys: seq<TimeoutKey>, third: bool,
                                      refused: set<nat>, p: Params, w: Measure)
    requires |apts| <= |keys| && Sweep(s, apts, keys, third, refused, p).Go?
    requires Sound(s) && SweepBacked(s, apts, keys, third, refused, p, w)
    ensures Sound(Sweep(s, apts, keys, third, refused, p).state)
    decreases |apts|
  {
    if apts != [] {
      var s2 := Finish(s, apts[0], keys[0], third, refused, p).state;
      FinishSound(s, apts[0], keys[0], third, refused, p, w);
      SweepSound(s2, apts[1..], keys[1..], third, refused, p, w);
    }
  }

  lemma TimeoutsSound(s: State, keys: seq<TimeoutKey>, third: bool, refused: set<nat>, p: Params, w: Measure)
    requires Sound(s) && Timeouts(s, keys, third, refused, p).Go? && TimeoutsBacked(s, keys, third, refused, p, w)
    ensures Sound(Timeouts(s, keys, third, refused, p).state)
  {
    if s.height > if third then p.thirdTimeout else p.secondTimeout {
      SweepSound(s, Collect(TierOf(s, third).pending, keys), keys, third, refused, p, w);
    }
  }

  lemma BlockSound(s: State, scan2: seq<TimeoutKey>, scan3: seq<TimeoutKey>, refused: set<nat>, p: Params, w: Measure)
    requires Sound(s) && EndBlock(s, scan2, scan3, refused, p).Go? && BlockBacked(s, scan2, scan3, refused, p, w)
    ensures Sound(EndBlock(s, scan2, scan3, refused, p).state)
  {
    var s0 := Cleanup(s, p);
    UnalteredSound(s, s0);
    TimeoutsSound(s0, scan2, false, refused, p, w);
    var s1 := Timeouts(s0, scan2, false, refused, p).state;
    TimeoutsSound(s1, scan3, true, refused, p, w);
    var s2 := Timeouts(s1, scan3, true, refused, p).state;
    UnalteredSound(s2, s2.(height := s2.height + 1));
  }

  lemma {:induction false} ReservesSound(s: State, es: seq<ReserveEntry>, p: Params)
    requires Sound(s) && ReserveAll(s, es).Go?
    ensures Sound(ReserveAll(s, es).state)
    decreases |es|
  {
    if es != [] {
      ReserveBooks(s, es[0], p);
      ReservesSound(Reserve(s, es[0]).state, es[1..], p);
    }
  }

  lemma AccountSound(s: State, step: Step, p: Params)
    requires Sound(s) && (step.DepositStep? || step.WithdrawStep?)
    ensures Sound(Apply(s, step, p))
  {
    StepBooks(s, step, p);
  }

  lemma FraudSound(s: State, m: FraudMsg, p: Params)
    requires Sound(s)
    ensures Sound(FraudProof(s, m, p))
  {
    FraudEffect(s, m, p);
    UnalteredSound(s, FraudProof(s, m, p));
  }

  lemma StepSound(s: State, step: Step, p: Params, w: Measure)
    requires Sound(s) && StepBacked(s, step, p, w)
    ensures Sound(Apply(s, step, p))
  {
    match step
    case DepositStep(_, _, _) => AccountSound(s, step, p);
    case WithdrawStep(_, _, _) => AccountSound(s, step, p);
    case ReserveStep(header, entries) =>
      if header && ReserveAll(s, entries).Go? { ReservesSound(s, entries, p); }
    case SettleStep(header, rows) =>
      if header && SettleAll(s, rows, p).Go? { RowsSound(s, rows, p, w); }
    case AuditStep(results) =>
      if AuditAll(s, results, p).Go? { ResultsSound(s, results, p, w); }
    case FraudStep(proof) => FraudSound(s, proof, p);
    case EndBlockStep(scan2, scan3, refused) =>
      if EndBlock(s, scan2, scan3, refused, p).Go? { BlockSound(s, scan2, scan3, refused, p, w); }
    case BankStep(bank) => UnalteredSound(s, s.(bank := bank));
  }

  lemma {:induction false} RunSound(s: State, steps: seq<Step>, p: Params, w: Measure)
    requires Sound(s) && BackedRun(s, steps, p, w)
    ensures Sound(Run(s, steps, p))
    decreases |steps|
  {
    if steps != [] {
      StepSound(s, steps[0], p, w);
      RunSound(Apply(s, steps[0], p), steps[1..], p, w);
    }
  }

  /** Over every run from genesis in which each charge is backed by a live reservation of the same user, of
      at least what is asked, or simply of the fee (MaxFee for per-token billing). */
  lemma ReservationsAreUnderwritten(bank: Bank, steps: seq<Step>, p: Params, w: Measure)
    requires BackedRun(Genesis(bank), steps, p, w)
    ensures var s := Run(Genesis(bank), steps, p);
            && (forall u :: u in s.accounts ==>
                  && s.accounts[u].frozen == Total(HeldBy(s.reserved, s.hist.owner, u))
                  && s.accounts[u].frozen <= s.accounts[u].balance)
            && s.hist.clamps == 0 && s.hist.shortfalls == 0 && s.hist.owned && s.hist.covered
  {
    RunSound(Genesis(bank), steps, p, w);
  }

  // ---------- Releases for the right user, covered or not ----------

  lemma {:induction false} OwnedRun(s: State, steps: seq<Step>, p: Params)
    requires Run(s, steps, p).hist.owned
    ensures s.hist.owned && (Summed(s) ==> Summed(Run(s, steps, p)) && Run(s, steps, p).hist.clamps == s.hist.clamps)
    decreases |steps|
  {
    if steps != [] {
      var s1 := Apply(s, steps[0], p);
      OwnedRun(s1, steps[1..], p);
      if steps[0].BankStep? { SameSums(s, s1); } else { StepBooks(s, steps[0], p); }
    }
  }

  /** Even uncovered charges leave FrozenBalance the sum of the live reservations, as long as
      every release was for the user who reserved. */
  lemma FrozenIsReserved(bank: Bank, steps: seq<Step>, p: Params)
    requires Run(Genesis(bank), steps, p).hist.owned
    ensures var s := Run(Genesis(bank), steps, p);
            && (forall u :: u in s.accounts ==> s.accounts[u].frozen == Total(HeldBy(s.reserved, s.hist.owner, u)))
            && s.hist.clamps == 0
  {
    OwnedRun(Genesis(bank), steps, p);
  }

  // ---------- Resending reservations ----------

  /** The task is reserved, or has a record. */
  predicate Taken(s: State, t: TaskId) { t in s.reserved || t in s.settled }

  /** A batch of reservations leaves alone every task that was taken when it began. */
  lemma {:induction false} BatchPassesOver(s: State, es: seq<ReserveEntry>, t: TaskId)
    requires Taken(s, t) && ReserveAll(s, es).Go?
    ensures var s2 := ReserveAll(s, es).state;
            && Taken(s2, t) && (t in s.reserved <==> t in s2.reserved)
            && (t in s.reserved ==> s2.reserved[t] == s.reserved[t])
    decreases |es|
  {
    if es != [] { BatchPassesOver(Reserve(s, es[0]).state, es[1..], t); }
  }

  /** A batch of nothing but taken tasks, in any order and number, changes nothing at all. */
  lemma {:induction false} ResendingIsIgnored(s: State, es: seq<ReserveEntry>)
    requires forall e :: e in es ==> Taken(s, e.task)
    ensures ReserveAll(s, es) == Go(s)
    decreases |es|
  {
    if es != [] { ResendingIsIgnored(s, es[1..]); }
  }

  ghost predicate TakenThroughout(s: State, steps: seq<Step>, p: Params, t: TaskId)
    decreases |steps|
  {
    Taken(s, t) && (steps != [] ==> TakenThroughout(Apply(s, steps[0], p), steps[1..], p, t))
  }

  /** Over any run throughout which a task is reserved or on record, it is never frozen again: its
      reservation is the one it had at the start, or gone for good. */
  lemma {:induction false} NeverFrozenAgain(s: State, steps: seq<Step>, p: Params, t: TaskId)
    requires TakenThroughout(s, steps, p, t)
    ensures var s2 := Run(s, steps, p); t in s2.reserved ==> t in s.reserved && s2.reserved[t] == s.reserved[t]
    decreases |steps|
  {
    if steps != [] {
      var step := steps[0];
      if !step.ReserveStep? {
        StepShrinks(s, step, p);
      } else if step.header && ReserveAll(s, step.entries).Go? {
        BatchPassesOver(s, step.entries, t);
      }
      NeverFrozenAgain(Apply(s, step, p), steps[1..], p, t);
    }
  }

  // ---------- Which reservations are made ----------

  /** A reservation is made for a live task that has none and no record, by a user with enough that is not frozen. */
  ghost predicate Reservable(s: State, e: ReserveEntry) {
    && e.maxFee.denom == Ufai && e.maxFee.amount > 0 && e.task != [] && (e.expire <= 0 || s.height <= e.expire)
    && e.task !in s.settled && e.task !in s.reserved && e.user.Bech32? && e.user.account in s.accounts
    && s.accounts[e.user.account].frozen + e.maxFee.amount <= s.accounts[e.user.account].balance
  }

  /** Then exactly its amount is frozen; otherwise nothing happens, but for the panic on an amount over 64 bits. */
  lemma ReserveFate(s: State, e: ReserveEntry)
    ensures if !Reservable(s, e) then Reserve(s, e) == Go(s)
            else if e.maxFee.amount >= Tokens.TWO_64 then Reserve(s, e).Panicked?
            else
              && Reserve(s, e).Go?
              && var s2, u := Reserve(s, e).state, e.user.account;
                 && s2.reserved == s.reserved[e.task := e.maxFee.amount] && u in s2.accounts
                 && s2.accounts[u].balance == s.accounts[u].balance
                 && s2.accounts[u].frozen == s.accounts[u].frozen + e.maxFee.amount
                 && s2.accounts == s.accounts[u := s2.accounts[u]] && s2.bank == s.bank
  {
  }
}
