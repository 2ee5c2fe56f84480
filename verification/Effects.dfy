/** What each settlement path can change, summarised so that invariants need not look inside it. */
module Effects {
  import opened Sums
  import opened FeeSplit
  import opened Ledger

  /** Nothing was newly reserved: the live reservations are among those there were. */
  ghost predicate Shrinks(s: State, s2: State) {
    forall t :: t in s2.reserved ==> t in s.reserved && s2.reserved[t] == s.reserved[t]
  }

  /** The parts of the ledger no settlement of a task touches. */
  ghost predicate Beside(s: State, s2: State) {
    && s2.height == s.height && s2.fraud == s.fraud
    && s2.second == s.second && s2.third == s.third && s2.audits == s.audits
    && s2.hist.originals == s.hist.originals && s2.hist.judged == s.hist.judged && s2.hist.clawed == s.hist.clawed
    && s2.hist.defrauded == s.hist.defrauded && s2.hist.named == s.hist.named && s2.hist.reopened == s.hist.reopened
    && s2.accounts.Keys == s.accounts.Keys && Shrinks(s, s2)
    && (s2.hist.owned ==> s.hist.owned) && (s2.hist.covered ==> s.hist.covered)
  }

  /** At most a reservation was released. */
  ghost predicate Quiet(s: State, s2: State) {
    && Beside(s, s2) && s2.settled == s.settled
    && s2.hist.firstAt == s.hist.firstAt && s2.hist.charges == s.hist.charges
    && s2.hist.workerPaid == s.hist.workerPaid
  }

  /** The task got a final record, with `n` debits of its user. */
  ghost predicate Settles(s: State, s2: State, j: Job, n: nat) {
    && Beside(s, s2) && n <= 1
    && j.task in s2.settled && s2.settled == s.settled[j.task := s2.settled[j.task]]
    && s2.settled[j.task].status in {TaskSettled, TaskFailSettled}
    && s2.settled[j.task].expire == j.expire && s2.settled[j.task].settledAt == s.height
    && s2.hist.firstAt == (if j.task in s.hist.firstAt then s.hist.firstAt else s.hist.firstAt[j.task := s.height])
    && s2.hist.charges == (if n == 0 then s.hist.charges
                           else s.hist.charges[j.task := Get(s.hist.charges, j.task) + 1])
    && (forall t :: t != j.task ==> Get(s2.hist.workerPaid, t) == Get(s.hist.workerPaid, t))
    && Get(s2.hist.workerPaid, j.task) >= Get(s.hist.workerPaid, j.task)
    && (s2.settled[j.task].status == TaskSettled ==> n == 1)
    && (s2.settled[j.task].status == TaskFailSettled ==>
          Get(s2.hist.workerPaid, j.task) == Get(s.hist.workerPaid, j.task))
  }

  lemma ChargeEffect(s: State, j: Job, asked: int, paid: int, ps: seq<Payout>, share: nat,
                     status: TaskStatus, refused: set<nat>)
    requires Payable(s, j) && paid <= Balance(s, j) && status in {TaskSettled, TaskFailSettled}
    requires status == TaskFailSettled ==> share == 0
    requires Charge(s, j, asked, paid, ps, share, status, refused).Some?
    ensures Settles(s, Charge(s, j, asked, paid, ps, share, status, refused).value, j, 1)
  {
  }

  lemma PaySuccessEffect(s: State, j: Job, fee: int, refused: set<nat>, p: Params)
    requires Payable(s, j) && PaySuccess(s, j, fee, refused, p).Some?
    ensures Settles(s, PaySuccess(s, j, fee, refused, p).value, j, 1)
  {
    var paid := Min(fee, Balance(s, j));
    if paid <= 0 {
      ChargeEffect(s, j, fee, paid, [], 0, TaskSettled, refused);
    } else {
      ChargeEffect(s, j, fee, paid, SuccessPayouts(paid, j.worker.account, j.verifiers, p.ratios),
                   WorkerShare(paid, j.verifiers, p.ratios), TaskSettled, refused);
    }
  }

  lemma PayFailEffect(s: State, j: Job, failFee: nat, refused: set<nat>, p: Params)
    requires Payable(s, j) && PayFail(s, j, failFee, refused, p).Some?
    ensures var s2 := PayFail(s, j, failFee, refused, p).value;
            Settles(s, s2, j, 1) && s2.settled[j.task].status == TaskFailSettled
  {
    var paid := Min(failFee, Balance(s, j));
    ChargeEffect(s, j, failFee, paid, if paid == 0 then [] else FailPayouts(paid, j.verifiers, p.ratios), 0,
                 TaskFailSettled, refused);
  }

  lemma PayFailPerTokenEffect(s: State, j: Job, failFee: nat, refused: set<nat>, p: Params)
    requires Payable(s, j)
    ensures var s2 := PayFailPerToken(s, j, failFee, refused, p);
            Settles(s, s2, j, 0) || Settles(s, s2, j, 1)
  {
    if failFee == 0 || Balance(s, j) < failFee || PayFail(s, j, failFee, refused, p).None? {
      RecordEffect(s, j);
    } else {
      PayFailEffect(s, j, failFee, refused, p);
      RecordAgainEffect(s, PayFail(s, j, failFee, refused, p).value, j);
    }
  }

  lemma RecordEffect(s: State, j: Job)
    ensures Settles(s, Record(s, j, TaskFailSettled, 0), j, 0)
  {
  }

  lemma RecordAgainEffect(s: State, s1: State, j: Job)
    requires Settles(s, s1, j, 1) && s1.settled[j.task].status == TaskFailSettled
    ensures Settles(s, Record(s1, j, TaskFailSettled, 0), j, 1)
  {
  }

  lemma AfterRelease(s: State, u: nat, t: TaskId, s2: State, j: Job)
    ensures Quiet(s, Unfreeze(s, u, t))
    ensures forall n :: Settles(Unfreeze(s, u, t), s2, j, n) ==> Settles(s, s2, j, n)
  {
    ReleaseIsQuiet(s, u, t);
    forall n | Settles(Unfreeze(s, u, t), s2, j, n) ensures Settles(s, s2, j, n) {
      QuietThenSettles(s, Unfreeze(s, u, t), s2, j, n);
    }
  }

  lemma ReleaseIsQuiet(s: State, u: nat, t: TaskId)
    ensures Quiet(s, Unfreeze(s, u, t))
  {
  }

  lemma QuietThenSettles(s: State, s1: State, s2: State, j: Job, n: nat)
    requires Quiet(s, s1) && Settles(s1, s2, j, n)
    ensures Settles(s, s2, j, n)
  {
  }

  function Or(o: Option<State>, s: State): State { match o case None => s case Some(s2) => s2 }

  /** What a row settled at once comes to: a release, and a charge if its payouts go through. */
  lemma RowOf(s: State, x: EntryInput, p: Params)
    requires SettleEntry(s, x, p).Go? && SettledNow(s, x, p)
    ensures var e, s1 := x.entry, Unfreeze(s, x.entry.user.account, x.entry.task);
            var j, fee := JobOf(e), ActualFee(e, p);
            && fee.Some? && Payable(s, j) && Payable(s1, j) && (e.status != SUCCESS ==> FailFee(fee.value, p).Some?)
            && SettleEntry(s, x, p).state ==
               if e.status == SUCCESS then Or(PaySuccess(s1, j, fee.value, x.refused, p), s1)
               else if IsPerToken(e) then PayFailPerToken(s1, j, FailFee(fee.value, p).value, x.refused, p)
               else Or(PayFail(s1, j, FailFee(fee.value, p).value, x.refused, p), s1)
  {
  }

  /** And an audited settlement. */
  lemma AuditedOf(s: State, apt: Pending, asSuccess: bool, override: Tokens.uint32, refused: set<nat>, p: Params)
    requires SettleAudited(s, apt, asSuccess, override, refused, p).Done?
    requires apt.task !in s.fraud && Payable(s, AuditJob(apt))
    ensures var s1 := Unfreeze(s, apt.user.account, apt.task);
            var j, base := AuditJob(apt), BaseFee(apt, override);
            && base.Some? && Payable(s1, j) && (!asSuccess ==> FailFee(base.value, p).Some?)
            && var paid := if asSuccess then PaySuccess(s1, j, base.value, refused, p)
                           else PayFail(s1, j, FailFee(base.value, p).value, refused, p);
               SettleAudited(s, apt, asSuccess, override, refused, p) == Done(Or(paid, s1), paid.Some?)
  {
  }

  /** A row that goes to settlement is skipped (payout failed) or finally recorded. */
  lemma SettleEntryEffect(s: State, x: EntryInput, p: Params)
    requires SettleEntry(s, x, p).Go? && SettledNow(s, x, p)
    ensures var s2 := SettleEntry(s, x, p).state;
            Quiet(s, s2) || Settles(s, s2, JobOf(x.entry), 0) || Settles(s, s2, JobOf(x.entry), 1)
  {
    var e := x.entry;
    var j, fee := JobOf(e), ActualFee(e, p).value;
    var s1 := Unfreeze(s, e.user.account, e.task);
    RowOf(s, x, p);
    AfterRelease(s, e.user.account, e.task, SettleEntry(s, x, p).state, j);
    if e.status == SUCCESS {
      if PaySuccess(s1, j, fee, x.refused, p).Some? { PaySuccessEffect(s1, j, fee, x.refused, p); }
    } else {
      var failFee := FailFee(fee, p).value;
      if IsPerToken(e) {
        PayFailPerTokenEffect(s1, j, failFee, x.refused, p);
      } else if PayFail(s1, j, failFee, x.refused, p).Some? {
        PayFailEffect(s1, j, failFee, x.refused, p);
      }
    }
  }

  lemma SettleAuditedEffect(s: State, apt: Pending, asSuccess: bool, override: Tokens.uint32, refused: set<nat>,
                            p: Params)
    requires SettleAudited(s, apt, asSuccess, override, refused, p).Done?
    ensures var v := SettleAudited(s, apt, asSuccess, override, refused, p);
            if v.settled && apt.task !in s.fraud then Settles(s, v.state, AuditJob(apt), 1) else Quiet(s, v.state)
    ensures apt.task in s.fraud ==> SettleAudited(s, apt, asSuccess, override, refused, p) == Done(s, true)
  {
    if apt.task !in s.fraud && Payable(s, AuditJob(apt)) {
      var s1 := Unfreeze(s, apt.user.account, apt.task);
      var base := BaseFee(apt, override).value;
      var s2 := SettleAudited(s, apt, asSuccess, override, refused, p).state;
      AfterRelease(s, apt.user.account, apt.task, s2, AuditJob(apt));
      if asSuccess {
        if PaySuccess(s1, AuditJob(apt), base, refused, p).Some? {
          PaySuccessEffect(s1, AuditJob(apt), base, refused, p);
        }
      } else {
        var failFee := FailFee(base, p).value;
        if PayFail(s1, AuditJob(apt), failFee, refused, p).Some? {
          PayFailEffect(s1, AuditJob(apt), failFee, refused, p);
        }
      }
    }
  }

  // ---------- Judgments and timeouts ----------

  /** Whatever was done to the task, no other record changed, none became TaskFraud, and marks and audit records
      stayed. */
  ghost predicate Handles(s: State, s2: State, t: TaskId) {
    && s2.height == s.height && s2.fraud == s.fraud && s2.audits == s.audits
    && s2.hist.originals == s.hist.originals && s2.hist.named == s.hist.named && s2.hist.reopened == s.hist.reopened
    && (s2.settled == s.settled ||
        (t in s2.settled && s2.settled == s.settled[t := s2.settled[t]] && s2.settled[t].status != TaskFraud))
    && (s2.hist.firstAt == s.hist.firstAt ||
        (t !in s.hist.firstAt && s2.hist.firstAt == s.hist.firstAt[t := s.height]))
  }

  lemma HandlesTwice(a: State, b: State, c: State, t: TaskId)
    requires Handles(a, b, t) && Handles(b, c, t)
    ensures Handles(a, c, t)
  {
  }

  lemma RowHandles(s: State, x: EntryInput, p: Params)
    requires SettleEntry(s, x, p).Go? && SettledNow(s, x, p)
    ensures var s2 := SettleEntry(s, x, p).state; Handles(s, s2, x.entry.task) && Beside(s, s2)
  {
    SettleEntryEffect(s, x, p);
  }

  lemma SettleAuditedHandles(s: State, apt: Pending, asSuccess: bool, override: Tokens.uint32, refused: set<nat>,
                             p: Params)
    requires SettleAudited(s, apt, asSuccess, override, refused, p).Done?
    ensures var v := SettleAudited(s, apt, asSuccess, override, refused, p);
            && Handles(s, v.state, apt.task) && Beside(s, v.state)
            && (apt.task in s.fraud ==> v == Done(s, true))
  {
    SettleAuditedEffect(s, apt, asSuccess, override, refused, p);
  }

  /** A judgment removes at most its own entry, or moves it one tier up. */
  ghost predicate Judged(s: State, s2: State, apt: Pending, escalate: bool) {
    && Handles(s, s2, apt.task) && s2.hist.judged == s.hist.judged[apt.task := Get(s.hist.judged, apt.task) + 1]
    && if escalate && !apt.third then s2 == Escalate(CountJudgment(s, apt.task), apt) else Resolves(s, s2, apt.task)
  }

  ghost predicate Resolves(s: State, s2: State, t: TaskId) {
    s2.third == s.third && (s2.second == s.second || s2.second == Drop(s.second, t))
  }

  lemma RecordHandles(s: State, j: Job)
    ensures var s2 := Record(s, j, TaskFailed, 0);
            Handles(s, s2, j.task) && s2.second == s.second && s2.third == s.third && s2.hist.judged == s.hist.judged
  {
  }

  lemma OverturnHandles(s: State, apt: Pending)
    ensures var s2 := Overturn(s, apt);
            Handles(s, s2, apt.task) && Resolves(s, s2, apt.task) && s2.hist.judged == s.hist.judged
  {
    RecordHandles(s, AuditJob(apt));
  }

  lemma TokenFraudHandles(s: State, apt: Pending, ar: AuditRecord, refused: set<nat>, p: Params)
    requires SettleTokenFraud(s, apt, ar, refused, p).Go?
    ensures var s2 := SettleTokenFraud(s, apt, ar, refused, p).state;
            Handles(s, s2, apt.task) && Resolves(s, s2, apt.task) && s2.hist.judged == s.hist.judged
  {
    var s1 := if apt.user.Bech32? then Unfreeze(s, apt.user.account, apt.task) else s;
    if apt.user.Bech32? { ReleaseIsQuiet(s, apt.user.account, apt.task); }
    var s3 := Overturn(s1, apt);
    OverturnHandles(s1, apt);
    HandlesTwice(s, s1, s3, apt.task);
    SettleAuditedHandles(s3, apt, false, Tokens.Median(ar.outTokens), refused, p);
    HandlesTwice(s, s3, SettleTokenFraud(s, apt, ar, refused, p).state, apt.task);
  }

  lemma SettleByAuditHandles(s: State, apt: Pending, ar: AuditRecord, refused: set<nat>, p: Params)
    requires SettleByAudit(s, apt, ar, refused, p).Go?
    ensures var s2 := SettleByAudit(s, apt, ar, refused, p).state;
            Handles(s, s2, apt.task) && Resolves(s, s2, apt.task) && s2.hist.judged == s.hist.judged
  {
    SettleAuditedHandles(s, apt, AuditPass(ar, p) && (apt.status == SUCCESS || apt.status == FAIL), 0, refused, p);
  }

  lemma CountHandles(s: State, s2: State, apt: Pending)
    requires var s1 := CountJudgment(s, apt.task);
             Handles(s1, s2, apt.task) && Resolves(s1, s2, apt.task) && s2.hist.judged == s1.hist.judged
    ensures Judged(s, s2, apt, false)
  {
  }

  lemma EscalateHandles(s: State, apt: Pending)
    ensures var s2 := Escalate(CountJudgment(s, apt.task), apt);
            && Handles(s, s2, apt.task)
            && s2.hist.judged == s.hist.judged[apt.task := Get(s.hist.judged, apt.task) + 1]
  {
  }

  lemma JudgeEffect(s0: State, apt: Pending, ar: AuditRecord, escalate: bool, refused: set<nat>, p: Params)
    requires Judge(s0, apt, ar, escalate, refused, p).Go?
    ensures Judged(s0, Judge(s0, apt, ar, escalate, refused, p).state, apt, escalate)
  {
    var s, s2 := CountJudgment(s0, apt.task), Judge(s0, apt, ar, escalate, refused, p).state;
    if !apt.third && escalate {
      EscalateHandles(s0, apt);
    } else {
      if !apt.third {
        if TokenFraud(apt, ar, p) {
          TokenFraudHandles(s, apt, ar, refused, p);
        } else if apt.status == SUCCESS && !AuditPass(ar, p) {
          OverturnHandles(s, apt);
        } else {
          SettleByAuditHandles(s, apt, ar, refused, p);
        }
      }
      CountHandles(s0, s2, apt);
    }
  }

  lemma CloseOutHandles(s: State, settled: bool, apt: Pending, key: TimeoutKey, third: bool)
    ensures var s2 := CloseOut(s, settled, apt, key, third);
            && Handles(s, s2, apt.task) && s2.hist.judged == s.hist.judged && (settled ==> s2.settled == s.settled)
            && TierOf(s2, third) == Tier(TierOf(s, third).pending - {apt.task}, TierOf(s, third).index - {key})
            && TierOf(s2, !third) == TierOf(s, !third)
  {
    RecordHandles(s, AuditJob(apt));
  }

  /** A timeout removes its entry and the key it is paired with; a marked task gets no record. */
  lemma FinishEffect(s: State, apt: Pending, key: TimeoutKey, third: bool, refused: set<nat>, p: Params)
    requires Finish(s, apt, key, third, refused, p).Go?
    ensures var s2 := Finish(s, apt, key, third, refused, p).state;
            && Handles(s, s2, apt.task) && s2.hist.judged == s.hist.judged
            && TierOf(s2, third) == Tier(TierOf(s, third).pending - {apt.task}, TierOf(s, third).index - {key})
            && TierOf(s2, !third) == TierOf(s, !third) && (apt.task in s.fraud ==> s2.settled == s.settled)
  {
    var v := SettleAudited(s, apt, TimeoutSuccess(s, apt, third, p), 0, refused, p);
    SettleAuditedHandles(s, apt, TimeoutSuccess(s, apt, third, p), 0, refused, p);
    CloseOutHandles(v.state, v.settled, apt, key, third);
    HandlesTwice(s, v.state, Finish(s, apt, key, third, refused, p).state, apt.task);
  }

  // ---------- Fraud proofs ----------

  /** A fraud proof touches marks, the one record, the bank and the clawback. */
  lemma FraudEffect(s: State, m: FraudMsg, p: Params)
    ensures var s2 := FraudProof(s, m, p);
            && s2 == s.(fraud := s2.fraud, settled := s2.settled, bank := s2.bank,
                        hist := s.hist.(clawed := s2.hist.clawed, defrauded := s2.hist.defrauded))
            && s.fraud <= s2.fraud && s.hist.defrauded <= s2.hist.defrauded && s2.settled.Keys == s.settled.Keys
  {
    if !FraudRejected(s, m, p) { ConvictEffect(s, m, p); }
  }

  lemma ClawbackEffect(s: State, m: FraudMsg, r: Settled, p: Params)
    requires m.worker.Bech32?
    ensures var s2 := Clawback(s, m, r, p); s2 == s.(bank := s2.bank, hist := s.hist.(clawed := s2.hist.clawed))
  {
    var s2 := Clawback(s, m, r, p);
    assert s2 == s || s2 == s.(bank := s2.bank, hist := s.hist.(clawed := s2.hist.clawed));
  }

  lemma ConvictEffect(s: State, m: FraudMsg, p: Params)
    requires m.worker.Bech32?
    ensures var s2 := Convict(s, m, p);
            && s2 == s.(fraud := s.fraud + {m.task}, settled := s2.settled, bank := s2.bank,
                        hist := s.hist.(clawed := s2.hist.clawed, defrauded := s2.hist.defrauded))
            && s.hist.defrauded <= s2.hist.defrauded && s2.settled.Keys == s.settled.Keys
  {
    if m.task in s.settled && s.settled[m.task].status == TaskSettled {
      var r := s.settled[m.task];
      ClawbackEffect(s.(fraud := s.fraud + {m.task}, settled := s.settled[m.task := r.(status := TaskFraud)],
                        hist := s.hist.(defrauded := s.hist.defrauded + {m.task})), m, r, p);
    }
  }

  /** It changes no more than the status of a settled record of its own task. */
  lemma FraudRecord(s: State, m: FraudMsg, p: Params, t: TaskId)
    ensures var s2 := FraudProof(s, m, p);
            && (t in s2.settled <==> t in s.settled) && (t != m.task ==> (t in s2.fraud <==> t in s.fraud))
            && (t in s.settled ==>
                  || s2.settled[t] == s.settled[t]
                  || (&& s.settled[t].status == TaskSettled && t == m.task && t !in s.fraud && t in s2.fraud
                      && s2.settled[t] == s.settled[t].(status := TaskFraud)))
  {
    if !FraudRejected(s, m, p) && m.task in s.settled && s.settled[m.task].status == TaskSettled {
      var r := s.settled[m.task];
      ClawbackEffect(s.(fraud := s.fraud + {m.task}, settled := s.settled[m.task := r.(status := TaskFraud)],
                        hist := s.hist.(defrauded := s.hist.defrauded + {m.task})), m, r, p);
    }
  }
}
