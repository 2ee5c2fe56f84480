/** The money side of every run: solvency, conservation of coins, underwriting of reservations and
    the bound on clawbacks (x/settlement/keeper/keeper.go:758-801, 1009-1195, 1617-1650, 2027-2203, 2596-2733). */
module Books {
  import opened Sums
  import opened FeeSplit
  import opened Ledger
  import opened Effects
  import opened Runs

  // ---------- What the books say ----------

  function Balances(s: State): map<nat, nat> {
    map u | u in s.accounts :: s.accounts[u].balance
  }

  /** What the module account holds beyond everything it owes its users. */
  ghost function Surplus(s: State): int {
    s.bank.pool - Total(Balances(s))
  }

  /** The live reservations made for one user. */
  ghost function HeldBy(reserved: map<TaskId, nat>, owner: map<TaskId, nat>, u: nat): map<TaskId, nat> {
    map t | t in reserved && t in owner && owner[t] == u :: reserved[t]
  }

  /** Each FrozenBalance is the sum of that user's live reservations. */
  ghost predicate Summed(s: State) {
    && (forall t :: t in s.reserved ==> s.reserved[t] > 0 && t in s.hist.owner && s.hist.owner[t] in s.accounts)
    && (forall u :: u in s.accounts ==> s.accounts[u].frozen == Total(HeldBy(s.reserved, s.hist.owner, u)))
  }

  /** And every balance covers it. */
  ghost predicate Underwritten(s: State) {
    Summed(s) && forall u :: u in s.accounts ==> s.accounts[u].frozen <= s.accounts[u].balance
  }

  function ExecutorShare(r: Settled, p: Params): nat {
    if r.status == TaskSettled && r.fee > 0 then PerMille(r.fee, p.ratios.executor) else 0
  }

  /** The worker was paid at least what a fraud proof would claw back, and nothing is clawed back
      before the task is marked. */
  ghost predicate ClawOk(s: State, p: Params, t: TaskId) {
    && (t in s.settled ==> ExecutorShare(s.settled[t], p) <= Get(s.hist.workerPaid, t))
    && Get(s.hist.clawed, t) <= Get(s.hist.workerPaid, t)
    && (t !in s.fraud ==> Get(s.hist.clawed, t) == 0)
  }

  /** Fees as callers are expected to send them: not negative. */
  predicate FairRow(e: Entry) { if IsPerToken(e) then e.maxFee.amount >= 0 else e.fee.amount >= 0 }

  predicate FairPending(apt: Pending) { apt.feeIn == 0 && apt.feeOut == 0 ==> apt.fee >= 0 }

  ghost predicate Fair(s: State) {
    && (forall t :: t in s.second.pending ==> FairPending(s.second.pending[t]))
    && (forall t :: t in s.third.pending ==> FairPending(s.third.pending[t]))
  }

  /** What every operation preserves, for all states and inputs; `fair` tells whether its own fee is. */
  ghost predicate Books(s: State, s2: State, p: Params, fair: bool) {
    && (Fair(s) && fair ==> Fair(s2) && s2.hist.credits == s.hist.credits)
    && Money(s2.bank) == Money(s.bank)
    && s.hist.credits <= s2.hist.credits
    && (s2.hist.credits == s.hist.credits ==> Surplus(s2) >= Surplus(s))
    && (s2.hist.owned ==> s.hist.owned) && (s2.hist.covered ==> s.hist.covered)
    && (Summed(s) && s2.hist.owned ==> Summed(s2) && s2.hist.clamps == s.hist.clamps)
    && (Underwritten(s) && s2.hist.owned && s2.hist.covered ==>
          Underwritten(s2) && s2.hist.shortfalls == s.hist.shortfalls)
    && (forall t :: ClawOk(s, p, t) ==> ClawOk(s2, p, t))
  }

  lemma BooksTransitive(a: State, b: State, c: State, p: Params, fair: bool)
    requires Books(a, b, p, fair) && Books(b, c, p, fair)
    ensures Books(a, c, p, fair)
  {
  }

  lemma BooksWeaken(s: State, s2: State, p: Params, fair: bool, fair2: bool)
    requires Books(s, s2, p, fair) && (fair2 ==> fair)
    ensures Books(s, s2, p, fair2)
  {
  }

  // ---------- Building blocks ----------

  /** Accounts, reservations and payments are untouched; records may go, or lose their claw share. */
  ghost predicate Untouched(s: State, s2: State, p: Params) {
    && s2.accounts == s.accounts && s2.reserved == s.reserved && s2.bank == s.bank && s2.fraud == s.fraud
    && s2.hist == s.hist.(firstAt := s2.hist.firstAt, originals := s2.hist.originals, judged := s2.hist.judged,
                           named := s2.hist.named, reopened := s2.hist.reopened)
    && (forall t :: t in s2.settled ==>
          (t in s.settled && s2.settled[t] == s.settled[t]) || ExecutorShare(s2.settled[t], p) == 0)
  }

  lemma UntouchedBooks(s: State, s2: State, p: Params, fair: bool)
    requires Untouched(s, s2, p) && (Fair(s) && fair ==> Fair(s2))
    ensures Books(s, s2, p, fair)
  {
    assert Balances(s2) == Balances(s);
  }

  /** One account changes its balance by `gain`, its frozen part becomes `frozen`. */
  lemma AccountChange(s: State, s2: State, u: nat)
    requires u in s.accounts && u in s2.accounts && s2.accounts == s.accounts[u := s2.accounts[u]]
    ensures Total(Balances(s2)) == Total(Balances(s)) - s.accounts[u].balance + s2.accounts[u].balance
  {
    assert Balances(s2) == Balances(s)[u := s2.accounts[u].balance];
    TotalPut(Balances(s), u, s2.accounts[u].balance);
  }

  lemma HeldByDrop(reserved: map<TaskId, nat>, owner: map<TaskId, nat>, t: TaskId, u: nat)
    ensures HeldBy(reserved - {t}, owner - {t}, u) == HeldBy(reserved, owner, u) - {t}
  {
  }

  lemma HeldByPut(reserved: map<TaskId, nat>, owner: map<TaskId, nat>, t: TaskId, amount: nat, v: nat, u: nat)
    requires t !in reserved
    ensures HeldBy(reserved[t := amount], owner[t := v], u) ==
            if u == v then HeldBy(reserved, owner, u)[t := amount] else HeldBy(reserved, owner, u)
  {
  }

  lemma UnfreezeSummed(s: State, u: nat, t: TaskId)
    requires Summed(s) && (t in s.reserved && u in s.accounts ==> s.hist.owner[t] == u)
    ensures Summed(Unfreeze(s, u, t)) && Unfreeze(s, u, t).hist.clamps == s.hist.clamps
  {
    if t in s.reserved && u in s.accounts {
      forall v | v in s.accounts
        ensures Total(HeldBy(s.reserved - {t}, s.hist.owner - {t}, v)) ==
                s.accounts[v].frozen - if v == u then s.reserved[t] else 0
      {
        var held := HeldBy(s.reserved, s.hist.owner, v);
        HeldByDrop(s.reserved, s.hist.owner, t, v);
        TotalDrop(held, t);
      }
    }
  }

  lemma UnfreezeBooks(s: State, u: nat, t: TaskId, p: Params)
    ensures Books(s, Unfreeze(s, u, t), p, true)
  {
    var s2 := Unfreeze(s, u, t);
    if t in s.reserved && u in s.accounts { AccountChange(s, s2, u); }
    if Summed(s) && s2.hist.owned { UnfreezeSummed(s, u, t); }
    assert forall t :: ClawOk(s, p, t) ==> ClawOk(s2, p, t);
  }

  /** A payout plan fits the debit it is made from and gives the worker at least the executor share. */
  ghost predicate PlanOk(paid: int, ps: seq<Payout>, share: nat, status: TaskStatus, p: Params) {
    && (paid >= 0 ==> Sum(ps) <= paid)
    && (status == TaskSettled && paid > 0 ==> PerMille(paid, p.ratios.executor) <= share)
  }

  lemma ChargeSummed(s: State, j: Job, paid: int, s2: State)
    requires Payable(s, j) && paid <= Balance(s, j)
    requires s2.reserved == s.reserved && s2.hist.owner == s.hist.owner
    requires var a := s.accounts[j.user.account];
             s2.accounts == s.accounts[j.user.account := a.(balance := a.balance - paid)]
    ensures Summed(s) <==> Summed(s2)
  {
    assert s2.accounts.Keys == s.accounts.Keys;
    assert forall u :: u in s.accounts ==> s2.accounts[u].frozen == s.accounts[u].frozen;
  }

  lemma ChargeUnderwritten(s: State, j: Job, asked: int, paid: int, s2: State)
    requires Payable(s, j) && paid == Min(asked, Balance(s, j))
    requires s2.reserved == s.reserved && s2.hist.owner == s.hist.owner
    requires var a := s.accounts[j.user.account];
             s2.accounts == s.accounts[j.user.account := a.(balance := a.balance - paid)]
    requires Underwritten(s)
    ensures var a := s.accounts[j.user.account]; Underwritten(s2) <==> asked <= Available(a) || a.frozen == 0
  {
    ChargeSummed(s, j, paid, s2);
    assert s2.accounts[j.user.account].frozen == s.accounts[j.user.account].frozen;
  }

  lemma ChargeClaw(s: State, j: Job, asked: int, paid: int, ps: seq<Payout>, share: nat,
                   status: TaskStatus, refused: set<nat>, p: Params, t: TaskId)
    requires Payable(s, j) && paid <= Balance(s, j) && PlanOk(paid, ps, share, status, p)
    requires Charge(s, j, asked, paid, ps, share, status, refused).Some? && ClawOk(s, p, t)
    ensures ClawOk(Charge(s, j, asked, paid, ps, share, status, refused).value, p, t)
  {
  }

  /** A charge moves the surplus by exactly what it keeps back. */
  lemma ChargeSurplus(s: State, j: Job, asked: int, paid: int, ps: seq<Payout>, share: nat,
                      status: TaskStatus, refused: set<nat>)
    requires Payable(s, j) && paid <= Balance(s, j)
    requires Charge(s, j, asked, paid, ps, share, status, refused).Some?
    ensures var s2 := Charge(s, j, asked, paid, ps, share, status, refused).value;
            Surplus(s2) == Surplus(s) + paid - Sum(ps) && Money(s2.bank) == Money(s.bank)
  {
    var s2 := Charge(s, j, asked, paid, ps, share, status, refused).value;
    PayAllConserves(s.bank, ps, refused);
    AccountChange(s, s2, j.user.account);
  }

  lemma ChargeBooks(s: State, j: Job, asked: int, paid: int, ps: seq<Payout>, share: nat,
                    status: TaskStatus, refused: set<nat>, p: Params)
    requires Payable(s, j) && paid == Min(asked, Balance(s, j)) && PlanOk(paid, ps, share, status, p)
    requires Charge(s, j, asked, paid, ps, share, status, refused).Some?
    ensures Books(s, Charge(s, j, asked, paid, ps, share, status, refused).value, p, asked >= 0)
  {
    var s2 := Charge(s, j, asked, paid, ps, share, status, refused).value;
    ChargeSurplus(s, j, asked, paid, ps, share, status, refused);
    ChargeSummed(s, j, paid, s2);
    if Underwritten(s) { ChargeUnderwritten(s, j, asked, paid, s2); }
    forall t | ClawOk(s, p, t) ensures ClawOk(s2, p, t) {
      ChargeClaw(s, j, asked, paid, ps, share, status, refused, p, t);
    }
  }

  lemma PaySuccessBooks(s: State, j: Job, fee: int, refused: set<nat>, p: Params)
    requires Payable(s, j) && PaySuccess(s, j, fee, refused, p).Some?
    ensures Books(s, PaySuccess(s, j, fee, refused, p).value, p, fee >= 0)
  {
    var paid := Min(fee, Balance(s, j));
    if paid <= 0 {
      ChargeBooks(s, j, fee, paid, [], 0, TaskSettled, refused, p);
    } else {
      SuccessSplitExact(paid, j.worker.account, j.verifiers, p.ratios);
      WorkerShareAtLeastExecutor(paid, j.verifiers, p.ratios);
      ChargeBooks(s, j, fee, paid, SuccessPayouts(paid, j.worker.account, j.verifiers, p.ratios),
                  WorkerShare(paid, j.verifiers, p.ratios), TaskSettled, refused, p);
    }
  }

  lemma PayFailBooks(s: State, j: Job, failFee: nat, refused: set<nat>, p: Params)
    requires Payable(s, j) && PayFail(s, j, failFee, refused, p).Some?
    ensures Books(s, PayFail(s, j, failFee, refused, p).value, p, true)
  {
    var paid := Min(failFee, Balance(s, j));
    FailSplitBound(paid, j.verifiers, p.ratios);
    ChargeBooks(s, j, failFee, paid, if paid == 0 then [] else FailPayouts(paid, j.verifiers, p.ratios), 0,
                TaskFailSettled, refused, p);
  }

  lemma RecordBooks(s: State, j: Job, status: TaskStatus, fee: int, p: Params)
    requires status != TaskSettled
    ensures Books(s, Record(s, j, status, fee), p, true)
  {
    UntouchedBooks(s, Record(s, j, status, fee), p, true);
  }

  lemma PayFailPerTokenBooks(s: State, j: Job, failFee: nat, refused: set<nat>, p: Params)
    requires Payable(s, j)
    ensures Books(s, PayFailPerToken(s, j, failFee, refused, p), p, true)
  {
    if failFee == 0 || Balance(s, j) < failFee || PayFail(s, j, failFee, refused, p).None? {
      RecordBooks(s, j, TaskFailSettled, 0, p);
    } else {
      PayFailBooks(s, j, failFee, refused, p);
      var s1 := PayFail(s, j, failFee, refused, p).value;
      RecordBooks(s1, j, TaskFailSettled, 0, p);
      BooksTransitive(s, s1, PayFailPerToken(s, j, failFee, refused, p), p, true);
    }
  }

  // ---------- Operations ----------

  lemma OpenAuditBooks(s: State, e: Entry, p: Params)
    ensures Books(s, OpenAudit(s, e), p, FairRow(e))
  {
    UntouchedBooks(s, OpenAudit(s, e), p, FairRow(e));
  }

  /** A release followed by a charge, if its payouts go through. */
  lemma ReleaseSuccessBooks(s: State, j: Job, fee: int, refused: set<nat>, p: Params)
    requires Payable(s, j)
    ensures var s1 := Unfreeze(s, j.user.account, j.task);
            Payable(s1, j) && Books(s, Or(PaySuccess(s1, j, fee, refused, p), s1), p, fee >= 0)
  {
    var s1 := Unfreeze(s, j.user.account, j.task);
    UnfreezeBooks(s, j.user.account, j.task, p);
    BooksWeaken(s, s1, p, true, fee >= 0);
    if PaySuccess(s1, j, fee, refused, p).Some? {
      PaySuccessBooks(s1, j, fee, refused, p);
      BooksTransitive(s, s1, PaySuccess(s1, j, fee, refused, p).value, p, fee >= 0);
    }
  }

  lemma ReleaseFailBooks(s: State, j: Job, failFee: nat, refused: set<nat>, p: Params)
    requires Payable(s, j)
    ensures var s1 := Unfreeze(s, j.user.account, j.task);
            Payable(s1, j) && Books(s, Or(PayFail(s1, j, failFee, refused, p), s1), p, true)
  {
    var s1 := Unfreeze(s, j.user.account, j.task);
    UnfreezeBooks(s, j.user.account, j.task, p);
    if PayFail(s1, j, failFee, refused, p).Some? {
      PayFailBooks(s1, j, failFee, refused, p);
      BooksTransitive(s, s1, PayFail(s1, j, failFee, refused, p).value, p, true);
    }
  }

  lemma ReleaseFailPerTokenBooks(s: State, j: Job, failFee: nat, refused: set<nat>, p: Params)
    requires Payable(s, j)
    ensures var s1 := Unfreeze(s, j.user.account, j.task);
            Payable(s1, j) && Books(s, PayFailPerToken(s1, j, failFee, refused, p), p, true)
  {
    var s1 := Unfreeze(s, j.user.account, j.task);
    UnfreezeBooks(s, j.user.account, j.task, p);
    PayFailPerTokenBooks(s1, j, failFee, refused, p);
    BooksTransitive(s, s1, PayFailPerToken(s1, j, failFee, refused, p), p, true);
  }

  lemma FairFee(e: Entry, p: Params)
    requires FairRow(e) && ActualFee(e, p).Some?
    ensures ActualFee(e, p).value >= 0
  {
  }

  lemma SettledRowBooks(s: State, x: EntryInput, p: Params)
    requires SettleEntry(s, x, p).Go? && SettledNow(s, x, p)
    ensures Books(s, SettleEntry(s, x, p).state, p, FairRow(x.entry))
  {
    var e, s2, fair := x.entry, SettleEntry(s, x, p).state, FairRow(x.entry);
    RowOf(s, x, p);
    var fee := ActualFee(e, p).value;
    if e.status == SUCCESS {
      if fair { FairFee(e, p); }
      ReleaseSuccessBooks(s, JobOf(e), fee, x.refused, p);
      BooksWeaken(s, s2, p, fee >= 0, fair);
    } else {
      var failFee := FailFee(fee, p).value;
      if IsPerToken(e) {
        ReleaseFailPerTokenBooks(s, JobOf(e), failFee, x.refused, p);
      } else {
        ReleaseFailBooks(s, JobOf(e), failFee, x.refused, p);
      }
      BooksWeaken(s, s2, p, true, fair);
    }
  }

  lemma RowBooks(s: State, x: EntryInput, p: Params)
    requires SettleEntry(s, x, p).Go?
    ensures Books(s, SettleEntry(s, x, p).state, p, FairRow(x.entry))
  {
    if Skipped(s, x.entry) {
      UntouchedBooks(s, s, p, FairRow(x.entry));
    } else if SettledNow(s, x, p) {
      SettledRowBooks(s, x, p);
    } else {
      OpenAuditBooks(s, x.entry, p);
    }
  }

  lemma FairBase(apt: Pending, override: Tokens.uint32)
    requires FairPending(apt) && BaseFee(apt, override).Some?
    ensures BaseFee(apt, override).value >= 0
  {
  }

  lemma SettleAuditedBooks(s: State, apt: Pending, asSuccess: bool, override: Tokens.uint32, refused: set<nat>,
                           p: Params)
    requires SettleAudited(s, apt, asSuccess, override, refused, p).Done?
    ensures Books(s, SettleAudited(s, apt, asSuccess, override, refused, p).state, p, FairPending(apt))
  {
    var s2, fair := SettleAudited(s, apt, asSuccess, override, refused, p).state, FairPending(apt);
    if apt.task in s.fraud || !Payable(s, AuditJob(apt)) {
      UntouchedBooks(s, s, p, fair);
    } else {
      AuditedOf(s, apt, asSuccess, override, refused, p);
      var base := BaseFee(apt, override).value;
      if asSuccess {
        if fair { FairBase(apt, override); }
        ReleaseSuccessBooks(s, AuditJob(apt), base, refused, p);
        BooksWeaken(s, s2, p, base >= 0, fair);
      } else {
        ReleaseFailBooks(s, AuditJob(apt), FailFee(base, p).value, refused, p);
        BooksWeaken(s, s2, p, true, fair);
      }
    }
  }

  /** Dropping an entry from a tier changes no money. */
  lemma DropBooks(s: State, t: TaskId, third: bool, index: set<TimeoutKey>, p: Params)
    ensures Books(s, WithTier(s, third, Tier(TierOf(s, third).pending - {t}, index)), p, true)
  {
    UntouchedBooks(s, WithTier(s, third, Tier(TierOf(s, third).pending - {t}, index)), p, true);
  }

  lemma DropSecondBooks(s: State, t: TaskId, p: Params)
    ensures Books(s, s.(second := Drop(s.second, t)), p, true)
  {
    assert Drop(s.second, t).pending == s.second.pending - {t};
    DropBooks(s, t, false, Drop(s.second, t).index, p);
  }

  lemma FailAndDropBooks(s: State, apt: Pending, p: Params)
    ensures Books(s, Overturn(s, apt), p, true)
  {
    var s1 := Record(s, AuditJob(apt), TaskFailed, 0);
    RecordBooks(s, AuditJob(apt), TaskFailed, 0, p);
    DropSecondBooks(s1, apt.task, p);
    BooksTransitive(s, s1, Overturn(s, apt), p, true);
  }

  lemma TokenFraudBooks(s: State, apt: Pending, ar: AuditRecord, refused: set<nat>, p: Params)
    requires SettleTokenFraud(s, apt, ar, refused, p).Go?
    ensures Books(s, SettleTokenFraud(s, apt, ar, refused, p).state, p, FairPending(apt))
  {
    var s1 := if apt.user.Bech32? then Unfreeze(s, apt.user.account, apt.task) else s;
    if apt.user.Bech32? { UnfreezeBooks(s, apt.user.account, apt.task, p); } else { UntouchedBooks(s, s, p, true); }
    var s3 := Overturn(s1, apt);
    FailAndDropBooks(s1, apt, p);
    BooksTransitive(s, s1, s3, p, true);
    SettleAuditedBooks(s3, apt, false, Tokens.Median(ar.outTokens), refused, p);
    BooksTransitive(s, s3, SettleTokenFraud(s, apt, ar, refused, p).state, p, FairPending(apt));
  }

  lemma SettleByAuditBooks(s: State, apt: Pending, ar: AuditRecord, refused: set<nat>, p: Params)
    requires SettleByAudit(s, apt, ar, refused, p).Go?
    ensures Books(s, SettleByAudit(s, apt, ar, refused, p).state, p, FairPending(apt))
  {
    var asSuccess := AuditPass(ar, p) && (apt.status == SUCCESS || apt.status == FAIL);
    SettleAuditedBooks(s, apt, asSuccess, 0, refused, p);
    var v := SettleAudited(s, apt, asSuccess, 0, refused, p);
    if v.settled {
      DropSecondBooks(v.state, apt.task, p);
      BooksTransitive(s, v.state, SettleByAudit(s, apt, ar, refused, p).state, p, FairPending(apt));
    }
  }

  lemma JudgeBooks(s0: State, apt: Pending, ar: AuditRecord, escalate: bool, refused: set<nat>, p: Params)
    requires Judge(s0, apt, ar, escalate, refused, p).Go?
    ensures Books(s0, Judge(s0, apt, ar, escalate, refused, p).state, p, FairPending(apt))
  {
    var s, s2 := CountJudgment(s0, apt.task), Judge(s0, apt, ar, escalate, refused, p).state;
    UntouchedBooks(s0, s, p, true);
    if !apt.third {
      if escalate { UntouchedBooks(s, s2, p, FairPending(apt)); }
      else if TokenFraud(apt, ar, p) { TokenFraudBooks(s, apt, ar, refused, p); }
      else if apt.status == SUCCESS && !AuditPass(ar, p) { FailAndDropBooks(s, apt, p); }
      else { SettleByAuditBooks(s, apt, ar, refused, p); }
      BooksTransitive(s0, s, s2, p, FairPending(apt));
    }
  }

  /** The fee of a pending entry is fair if all are. */
  lemma PendingBooks(s: State, s2: State, t: TaskId, p: Params)
    requires t in s.second.pending && Books(s, s2, p, FairPending(s.second.pending[t]))
    ensures Books(s, s2, p, true)
  {
  }

  lemma ResultBooks(s: State, m: AuditInput, p: Params)
    requires AuditResult(s, m, p).Go?
    ensures Books(s, AuditResult(s, m, p).state, p, true)
  {
    if AuditRejected(s, m, p) {
      UntouchedBooks(s, s, p, true);
    } else {
      var was := if m.task in s.audits then s.audits[m.task] else AuditRecord([], [], [], [], 0);
      var ar := Extend(was, m, s.height);
      var s1 := s.(audits := s.audits[m.task := ar]);
      UntouchedBooks(s, s1, p, true);
      if |ar.results| >= p.secondVerifiers {
        var s2 := AuditResult(s, m, p).state;
        JudgeBooks(s1, s.second.pending[m.task], ar, m.escalate, m.refused, p);
        PendingBooks(s1, s2, m.task, p);
        BooksTransitive(s, s1, s2, p, true);
      }
    }
  }

  lemma CloseOutBooks(s: State, settled: bool, apt: Pending, key: TimeoutKey, third: bool, p: Params)
    ensures Books(s, CloseOut(s, settled, apt, key, third), p, true)
  {
    var s1 := if settled then s else Record(s, AuditJob(apt), TaskFailed, 0);
    if settled {
      UntouchedBooks(s, s1, p, true);
    } else {
      RecordBooks(s, AuditJob(apt), TaskFailed, 0, p);
    }
    DropBooks(s1, apt.task, third, TierOf(s1, third).index - {key}, p);
    BooksTransitive(s, s1, CloseOut(s, settled, apt, key, third), p, true);
  }

  lemma FinishBooks(s: State, apt: Pending, key: TimeoutKey, third: bool, refused: set<nat>, p: Params)
    requires Finish(s, apt, key, third, refused, p).Go?
    ensures Books(s, Finish(s, apt, key, third, refused, p).state, p, FairPending(apt))
  {
    var v := SettleAudited(s, apt, TimeoutSuccess(s, apt, third, p), 0, refused, p);
    var s2 := CloseOut(v.state, v.settled, apt, key, third);
    SettleAuditedBooks(s, apt, TimeoutSuccess(s, apt, third, p), 0, refused, p);
    CloseOutBooks(v.state, v.settled, apt, key, third, p);
    BooksWeaken(v.state, s2, p, true, FairPending(apt));
    BooksTransitive(s, v.state, s2, p, FairPending(apt));
  }

  lemma {:induction false} SweepBooks(s: State, apts: seq<Pending>, keys: seq<TimeoutKey>, third: bool,
                                      refused: set<nat>, p: Params, fair: bool)
    requires |apts| <= |keys| && Sweep(s, apts, keys, third, refused, p).Go?
    requires fair ==> forall i :: 0 <= i < |apts| ==> FairPending(apts[i])
    ensures Books(s, Sweep(s, apts, keys, third, refused, p).state, p, fair)
    decreases |apts|
  {
    if apts == [] {
      UntouchedBooks(s, s, p, true);
    } else {
      FinishBooks(s, apts[0], keys[0], third, refused, p);
      var s1 := Finish(s, apts[0], keys[0], third, refused, p).state;
      SweepBooks(s1, apts[1..], keys[1..], third, refused, p, fair);
      BooksTransitive(s, s1, Sweep(s, apts, keys, third, refused, p).state, p, fair);
    }
  }

  lemma {:induction false} CollectFair(pending: map<TaskId, Pending>, keys: seq<TimeoutKey>)
    requires forall t :: t in pending ==> FairPending(pending[t])
    ensures forall i :: 0 <= i < |Collect(pending, keys)| ==> FairPending(Collect(pending, keys)[i])
  {
    if keys != [] { CollectFair(pending, keys[1..]); }
  }

  lemma TimeoutsBooks(s: State, keys: seq<TimeoutKey>, third: bool, refused: set<nat>, p: Params)
    requires Timeouts(s, keys, third, refused, p).Go?
    ensures Books(s, Timeouts(s, keys, third, refused, p).state, p, true)
  {
    if s.height > if third then p.thirdTimeout else p.secondTimeout {
      var apts := Collect(TierOf(s, third).pending, keys);
      if Fair(s) { CollectFair(TierOf(s, third).pending, keys); }
      SweepBooks(s, apts, keys, third, refused, p, Fair(s));
    } else {
      UntouchedBooks(s, s, p, true);
    }
  }

  lemma SweepsBooks(s: State, s1: State, s2: State, scan2: seq<TimeoutKey>, scan3: seq<TimeoutKey>, refused: set<nat>,
                    p: Params)
    requires Timeouts(s, scan2, false, refused, p) == Go(s1) && Timeouts(s1, scan3, true, refused, p) == Go(s2)
    ensures Books(s, s2, p, true)
  {
    TimeoutsBooks(s, scan2, false, refused, p);
    TimeoutsBooks(s1, scan3, true, refused, p);
    BooksTransitive(s, s1, s2, p, true);
  }

  lemma EndBlockBooks(s: State, scan2: seq<TimeoutKey>, scan3: seq<TimeoutKey>, refused: set<nat>, p: Params)
    requires EndBlock(s, scan2, scan3, refused, p).Go?
    ensures Books(s, EndBlock(s, scan2, scan3, refused, p).state, p, true)
  {
    var s1, s2 := BlockParts(s, scan2, scan3, refused, p);
    var s0, s3 := Cleanup(s, p), s2.(height := s2.height + 1);
    CleanupBooks(s, p);
    SweepsBooks(s0, s1, s2, scan2, scan3, refused, p);
    TickBooks(s2, p);
    BooksTransitive(s, s0, s2, p, true);
    BooksTransitive(s, s2, s3, p, true);
  }

  lemma CleanupBooks(s: State, p: Params)
    ensures Books(s, Cleanup(s, p), p, true)
  {
    UntouchedBooks(s, Cleanup(s, p), p, true);
  }

  lemma TickBooks(s: State, p: Params)
    ensures Books(s, s.(height := s.height + 1), p, true)
  {
    UntouchedBooks(s, s.(height := s.height + 1), p, true);
  }

  /** An operation on accounts, reservations and the bank only. */
  lemma AccountsBooks(s: State, s2: State, p: Params)
    requires s2 == s.(accounts := s2.accounts, reserved := s2.reserved, bank := s2.bank,
                      hist := s.hist.(owner := s2.hist.owner))
    requires Money(s2.bank) == Money(s.bank) && Surplus(s2) == Surplus(s)
    requires (Summed(s) ==> Summed(s2)) && (Underwritten(s) ==> Underwritten(s2))
    ensures Books(s, s2, p, true)
  {
    assert forall t :: ClawOk(s, p, t) ==> ClawOk(s2, p, t);
  }

  lemma DepositSummed(s: State, who: nat, coin: Coin, refusal: bool)
    requires Summed(s)
    ensures Summed(Deposit(s, who, coin, refusal))
  {
    if who !in s.accounts { assert HeldBy(s.reserved, s.hist.owner, who) == map[]; }
  }

  lemma DepositSurplus(s: State, who: nat, coin: Coin, refusal: bool)
    ensures var s2 := Deposit(s, who, coin, refusal); Surplus(s2) == Surplus(s) && Money(s2.bank) == Money(s.bank)
  {
    var s2 := Deposit(s, who, coin, refusal);
    if s2 != s {
      TotalPut(s.bank.wallets, who, Get(s.bank.wallets, who) - coin.amount);
      TotalPut(Balances(s), who, s2.accounts[who].balance);
      assert Balances(s2) == Balances(s)[who := s2.accounts[who].balance];
    }
  }

  lemma DepositBooks(s: State, who: nat, coin: Coin, refusal: bool, p: Params)
    ensures Books(s, Deposit(s, who, coin, refusal), p, true)
  {
    DepositSurplus(s, who, coin, refusal);
    if Summed(s) { DepositSummed(s, who, coin, refusal); }
    AccountsBooks(s, Deposit(s, who, coin, refusal), p);
  }

  lemma WithdrawUnderwritten(s: State, who: nat, coin: Coin, refused: set<nat>)
    ensures Summed(s) ==> Summed(Withdraw(s, who, coin, refused))
    ensures Underwritten(s) ==> Underwritten(Withdraw(s, who, coin, refused))
  {
  }

  lemma WithdrawSurplus(s: State, who: nat, coin: Coin, refused: set<nat>)
    ensures var s2 := Withdraw(s, who, coin, refused); Surplus(s2) == Surplus(s) && Money(s2.bank) == Money(s.bank)
  {
    var s2 := Withdraw(s, who, coin, refused);
    if s2 != s {
      TotalPut(s.bank.wallets, who, Get(s.bank.wallets, who) + coin.amount);
      AccountChange(s, s2, who);
    }
  }

  lemma WithdrawBooks(s: State, who: nat, coin: Coin, refused: set<nat>, p: Params)
    ensures Books(s, Withdraw(s, who, coin, refused), p, true)
  {
    WithdrawSurplus(s, who, coin, refused);
    WithdrawUnderwritten(s, who, coin, refused);
    AccountsBooks(s, Withdraw(s, who, coin, refused), p);
  }

  lemma FreezeSummed(s: State, u: nat, t: TaskId, amount: nat)
    requires Summed(s) && u in s.accounts && t !in s.reserved && 0 < amount
    ensures Summed(Freeze(s, u, t, amount))
  {
    var s2 := Freeze(s, u, t, amount);
    forall v | v in s2.accounts
      ensures s2.accounts[v].frozen == Total(HeldBy(s2.reserved, s2.hist.owner, v))
    {
      FreezeHeld(s, u, t, amount, v);
    }
  }

  lemma FreezeHeld(s: State, u: nat, t: TaskId, amount: nat, v: nat)
    requires t !in s.reserved
    ensures Total(HeldBy(s.reserved[t := amount], s.hist.owner[t := u], v)) ==
            Total(HeldBy(s.reserved, s.hist.owner, v)) + if v == u then amount else 0
  {
    HeldByPut(s.reserved, s.hist.owner, t, amount, u, v);
    TotalPut(HeldBy(s.reserved, s.hist.owner, v), t, amount);
  }

  lemma ReserveBooks(s: State, e: ReserveEntry, p: Params)
    requires Reserve(s, e).Go?
    ensures Books(s, Reserve(s, e).state, p, true)
  {
    var s2 := Reserve(s, e).state;
    if ReserveRejected(s, e) {
      UntouchedBooks(s, s, p, true);
    } else {
      AccountChange(s, s2, e.user.account);
      if Summed(s) { FreezeSummed(s, e.user.account, e.task, e.maxFee.amount); }
      AccountsBooks(s, s2, p);
    }
  }

  lemma TransferConserves(b: Bank, from: nat, to: nat, amount: nat, refused: set<nat>)
    requires Transfer(b, from, to, amount, refused).Some?
    ensures var b2 := Transfer(b, from, to, amount, refused).value; b2.pool == b.pool && Money(b2) == Money(b)
  {
    var w := b.wallets[from := Get(b.wallets, from) - amount];
    TotalPut(b.wallets, from, Get(b.wallets, from) - amount);
    TotalPut(w, to, Get(w, to) + amount);
  }

  lemma ClawbackMoney(s: State, m: FraudMsg, r: Settled, p: Params)
    requires m.worker.Bech32?
    ensures var b := Clawback(s, m, r, p).bank; b.pool == s.bank.pool && Money(b) == Money(s.bank)
  {
    var refund := if r.user.Bech32? then r.user else m.reporter;
    var amount := if r.fee > 0 then PerMille(r.fee, p.ratios.executor) else 0;
    if amount != 0 && refund.Bech32? && Transfer(s.bank, m.worker.account, refund.account, amount, m.refused).Some? {
      TransferConserves(s.bank, m.worker.account, refund.account, amount, m.refused);
    }
  }

  lemma ClawbackAmount(s: State, m: FraudMsg, r: Settled, p: Params)
    requires m.worker.Bech32?
    ensures var clawed := Clawback(s, m, r, p).hist.clawed;
            && (forall t :: t != m.task ==> Get(clawed, t) == Get(s.hist.clawed, t))
            && Get(clawed, m.task) <=
                 Get(s.hist.clawed, m.task) + if r.fee > 0 then PerMille(r.fee, p.ratios.executor) else 0
  {
  }

  lemma ClawbackBank(s: State, m: FraudMsg, r: Settled, p: Params)
    requires m.worker.Bech32?
    ensures var s2 := Clawback(s, m, r, p);
            && s2.bank.pool == s.bank.pool && Money(s2.bank) == Money(s.bank)
            && s2 == s.(bank := s2.bank, hist := s.hist.(clawed := s2.hist.clawed))
            && (forall t :: t != m.task ==> Get(s2.hist.clawed, t) == Get(s.hist.clawed, t))
            && Get(s2.hist.clawed, m.task) <=
                 Get(s.hist.clawed, m.task) + if r.fee > 0 then PerMille(r.fee, p.ratios.executor) else 0
  {
    ClawbackMoney(s, m, r, p);
    ClawbackAmount(s, m, r, p);
    ClawbackEffect(s, m, r, p);
  }

  /** Marking a task and turning its record into TaskFraud. */
  lemma MarkBooks(s: State, t: TaskId, p: Params)
    requires t !in s.fraud && t in s.settled && s.settled[t].status == TaskSettled
    ensures var r := s.settled[t];
            var s1 := s.(fraud := s.fraud + {t}, settled := s.settled[t := r.(status := TaskFraud)],
                         hist := s.hist.(defrauded := s.hist.defrauded + {t}));
            && (forall u :: ClawOk(s, p, u) ==> ClawOk(s1, p, u))
            && (ClawOk(s, p, t) ==>
                  Get(s1.hist.clawed, t) + (if r.fee > 0 then PerMille(r.fee, p.ratios.executor) else 0)
                    <= Get(s1.hist.workerPaid, t))
  {
  }

  lemma FraudClaw(s: State, m: FraudMsg, p: Params)
    ensures forall t :: ClawOk(s, p, t) ==> ClawOk(FraudProof(s, m, p), p, t)
    ensures var s2 := FraudProof(s, m, p);
            s2.accounts == s.accounts && s2.bank.pool == s.bank.pool && Money(s2.bank) == Money(s.bank)
  {
    if !FraudRejected(s, m, p) && m.task in s.settled && s.settled[m.task].status == TaskSettled {
      var r := s.settled[m.task];
      MarkBooks(s, m.task, p);
      ClawbackBank(s.(fraud := s.fraud + {m.task}, settled := s.settled[m.task := r.(status := TaskFraud)],
                      hist := s.hist.(defrauded := s.hist.defrauded + {m.task})), m, r, p);
    }
  }

  lemma FraudBooks(s: State, m: FraudMsg, p: Params)
    ensures Books(s, FraudProof(s, m, p), p, true)
  {
    FraudClaw(s, m, p);
    FraudEffect(s, m, p);
  }

  // ---------- Messages, steps, runs ----------

  lemma {:induction false} RowsBooks(s: State, xs: seq<EntryInput>, p: Params, fair: bool)
    requires SettleAll(s, xs, p).Go? && (fair ==> forall i :: 0 <= i < |xs| ==> FairRow(xs[i].entry))
    ensures Books(s, SettleAll(s, xs, p).state, p, fair)
    decreases |xs|
  {
    if xs == [] {
      UntouchedBooks(s, s, p, true);
    } else {
      RowBooks(s, xs[0], p);
      var s1 := SettleEntry(s, xs[0], p).state;
      RowsBooks(s1, xs[1..], p, fair);
      BooksTransitive(s, s1, SettleAll(s, xs, p).state, p, fair);
    }
  }

  lemma {:induction false} ReservesBooks(s: State, es: seq<ReserveEntry>, p: Params)
    requires ReserveAll(s, es).Go?
    ensures Books(s, ReserveAll(s, es).state, p, true)
    decreases |es|
  {
    if es == [] {
      UntouchedBooks(s, s, p, true);
    } else {
      ReserveBooks(s, es[0], p);
      var s1 := Reserve(s, es[0]).state;
      ReservesBooks(s1, es[1..], p);
      BooksTransitive(s, s1, ReserveAll(s, es).state, p, true);
    }
  }

  lemma {:induction false} ResultsBooks(s: State, ms: seq<AuditInput>, p: Params)
    requires AuditAll(s, ms, p).Go?
    ensures Books(s, AuditAll(s, ms, p).state, p, true)
    decreases |ms|
  {
    if ms == [] {
      UntouchedBooks(s, s, p, true);
    } else {
      ResultBooks(s, ms[0], p);
      var s1 := AuditResult(s, ms[0], p).state;
      ResultsBooks(s1, ms[1..], p);
      BooksTransitive(s, s1, AuditAll(s, ms, p).state, p, true);
    }
  }

  ghost predicate FairStep(step: Step) {
    step.SettleStep? ==> forall i :: 0 <= i < |step.rows| ==> FairRow(step.rows[i].entry)
  }

  lemma StepBooks(s: State, step: Step, p: Params)
    requires !step.BankStep?
    ensures Books(s, Apply(s, step, p), p, FairStep(step))
  {
    UntouchedBooks(s, s, p, true);
    match step
    case DepositStep(who, coin, refusal) => DepositBooks(s, who, coin, refusal, p);
    case WithdrawStep(who, coin, refused) => WithdrawBooks(s, who, coin, refused, p);
    case ReserveStep(header, entries) =>
      if header && ReserveAll(s, entries).Go? { ReservesBooks(s, entries, p); }
    case SettleStep(header, rows) =>
      if header && SettleAll(s, rows, p).Go? { RowsBooks(s, rows, p, FairStep(step)); }
    case AuditStep(results) =>
      if AuditAll(s, results, p).Go? { ResultsBooks(s, results, p); }
    case FraudStep(proof) => FraudBooks(s, proof, p);
    case EndBlockStep(scan2, scan3, refused) =>
      if EndBlock(s, scan2, scan3, refused, p).Go? { EndBlockBooks(s, scan2, scan3, refused, p); }
  }
}
