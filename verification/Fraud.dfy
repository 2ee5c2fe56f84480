/** Fraud proofs over whole runs: a mark is final, when a record of fraud is, and clawbacks stay within what the
    worker got (x/settlement/keeper/keeper.go:1473-1650, 1840-1931, 2027-2035). */
module Fraud {
  import opened Sums
  import opened FeeSplit
  import opened Ledger
  import opened Effects
  import opened Runs
  import opened Audits
  import opened Books
  import Charges

  /** After a task is marked, whatever follows, its user is never debited and its worker never paid
      for it, and the mark stays. No assumption on states, callers or expiries. */
  lemma FraudIsTerminal(s: State, steps: seq<Step>, p: Params, t: TaskId)
    requires t in s.fraud
    ensures var s2 := Run(s, steps, p);
            && t in s2.fraud
            && Get(s2.hist.charges, t) == Get(s.hist.charges, t)
            && Get(s2.hist.workerPaid, t) == Get(s.hist.workerPaid, t)
  {
    RunAdvances(s, steps, p);
  }

  // ---------- Records of fraud ----------

  /** The task can still be judged: its entry is there and its audit record is not complete. */
  predicate Open(s: State, p: Params, t: TaskId) { t in s.second.pending && !Complete(s, p, t) }

  /** Two things that can hold of a task, neither of which what is done to other tasks can change. */
  datatype Claim =
    | Final(record: Settled) // it is marked, cannot be judged, and has this record or none
    | Waits(due: int)        // while it can be judged, it is due or its record says so since it was submitted

  ghost predicate Holds(c: Claim, s: State, p: Params, t: TaskId) {
    match c
    case Final(r) => t in s.fraud && !Open(s, p, t) && (t in s.settled ==> s.settled[t] == r)
    case Waits(due) =>
      Open(s, p, t) && s.second.pending[t].submittedAt > due ==>
        && t in s.settled && s.settled[t].status == TaskPendingSecondVerification
        && s.settled[t].settledAt == s.second.pending[t].submittedAt
  }

  ghost predicate Untouched(s: State, s2: State, t: TaskId) {
    && (t in s2.settled <==> t in s.settled) && (t in s.settled ==> s2.settled[t] == s.settled[t])
    && (t in s2.second.pending <==> t in s.second.pending)
    && (t in s.second.pending ==> s2.second.pending[t] == s.second.pending[t])
    && (t in s2.audits <==> t in s.audits) && (t in s.audits ==> s2.audits[t] == s.audits[t])
    && (t in s2.fraud <==> t in s.fraud)
  }

  lemma UntouchedHolds(c: Claim, s: State, s2: State, p: Params, t: TaskId)
    requires Holds(c, s, p, t) && Untouched(s, s2, t)
    ensures Holds(c, s2, p, t)
  {
  }

  lemma RowHolds(c: Claim, s: State, x: EntryInput, p: Params, t: TaskId)
    requires Inv(s, p) && Holds(c, s, p, t) && (c.Waits? ==> c.due == 0) && SettleEntry(s, x, p).Go?
    ensures Holds(c, SettleEntry(s, x, p).state, p, t)
  {
    var s2 := SettleEntry(s, x, p).state;
    if SettledNow(s, x, p) { RowHandles(s, x, p); }
    if x.entry.task != t { UntouchedHolds(c, s, s2, p, t); }
  }

  lemma {:induction false} RowsHold(c: Claim, s: State, xs: seq<EntryInput>, p: Params, t: TaskId)
    requires Inv(s, p) && Holds(c, s, p, t) && (c.Waits? ==> c.due == 0) && SettleAll(s, xs, p).Go?
    ensures Holds(c, SettleAll(s, xs, p).state, p, t)
    decreases |xs|
  {
    if xs != [] {
      RowHolds(c, s, xs[0], p, t);
      RowKeeps(s, xs[0], p);
      RowsHold(c, SettleEntry(s, xs[0], p).state, xs[1..], p, t);
    }
  }

  lemma OwnResultHolds(c: Claim, s: State, m: AuditInput, p: Params)
    requires Inv(s, p) && Holds(c, s, p, m.task) && AuditResult(s, m, p).Go?
    ensures Holds(c, AuditResult(s, m, p).state, p, m.task)
  {
    assert AuditOk(s, p, m.task);
    if !AuditRejected(s, m, p) {
      var ar := Extended(s, m);
      var s1 := s.(audits := s.audits[m.task := ar]);
      if |ar.results| >= p.secondVerifiers {
        JudgeEffect(s1, s.second.pending[m.task], ar, m.escalate, m.refused, p);
      }
    }
  }

  lemma JudgedUntouched(s: State, s2: State, apt: Pending, escalate: bool, t: TaskId)
    requires Judged(s, s2, apt, escalate) && apt.task != t
    ensures Untouched(s, s2, t)
  {
  }

  lemma OtherResultHolds(c: Claim, s: State, m: AuditInput, p: Params, t: TaskId)
    requires Inv(s, p) && Holds(c, s, p, t) && m.task != t && AuditResult(s, m, p).Go?
    ensures Holds(c, AuditResult(s, m, p).state, p, t)
  {
    if !AuditRejected(s, m, p) {
      var ar := Extended(s, m);
      var s1 := s.(audits := s.audits[m.task := ar]);
      UntouchedHolds(c, s, s1, p, t);
      if |ar.results| >= p.secondVerifiers {
        var apt, s2 := s.second.pending[m.task], AuditResult(s, m, p).state;
        JudgeEffect(s1, apt, ar, m.escalate, m.refused, p);
        JudgedUntouched(s1, s2, apt, m.escalate, t);
        UntouchedHolds(c, s1, s2, p, t);
      }
    }
  }

  lemma {:induction false} ResultsHold(c: Claim, s: State, ms: seq<AuditInput>, p: Params, t: TaskId)
    requires Inv(s, p) && Holds(c, s, p, t) && AuditAll(s, ms, p).Go?
    ensures Holds(c, AuditAll(s, ms, p).state, p, t)
    decreases |ms|
  {
    if ms != [] {
      if ms[0].task == t { OwnResultHolds(c, s, ms[0], p); } else { OtherResultHolds(c, s, ms[0], p, t); }
      ResultKeeps(s, ms[0], p);
      ResultsHold(c, AuditResult(s, ms[0], p).state, ms[1..], p, t);
    }
  }

  lemma ProofHolds(c: Claim, s: State, m: FraudMsg, p: Params, t: TaskId)
    requires Holds(c, s, p, t)
    ensures Holds(c, FraudProof(s, m, p), p, t)
  {
    FraudEffect(s, m, p);
    FraudRecord(s, m, p, t);
  }

  /** A task in the third tier can no longer be judged, so its timeout there does not matter. */
  lemma FinishHolds(c: Claim, s: State, apt: Pending, key: TimeoutKey, third: bool, refused: set<nat>, p: Params,
                    t: TaskId)
    requires Holds(c, s, p, t) && Finish(s, apt, key, third, refused, p).Go?
    requires third && apt.task == t ==> Complete(s, p, t)
    ensures Holds(c, Finish(s, apt, key, third, refused, p).state, p, t)
  {
    FinishEffect(s, apt, key, third, refused, p);
    if apt.task != t { UntouchedHolds(c, s, Finish(s, apt, key, third, refused, p).state, p, t); }
  }

  lemma {:induction false} SweepHolds(c: Claim, s: State, apts: seq<Pending>, keys: seq<TimeoutKey>, third: bool,
                                      refused: set<nat>, p: Params, t: TaskId)
    requires Holds(c, s, p, t) && |apts| <= |keys| && Sweep(s, apts, keys, third, refused, p).Go?
    requires third && t in TasksOf(apts) ==> Complete(s, p, t)
    ensures Holds(c, Sweep(s, apts, keys, third, refused, p).state, p, t)
    decreases |apts|
  {
    if apts != [] {
      SweepSets(apts, keys);
      FinishHolds(c, s, apts[0], keys[0], third, refused, p, t);
      FinishEffect(s, apts[0], keys[0], third, refused, p);
      SweepHolds(c, Finish(s, apts[0], keys[0], third, refused, p).state, apts[1..], keys[1..], third, refused, p, t);
    }
  }

  lemma TimeoutsHold(c: Claim, s: State, keys: seq<TimeoutKey>, third: bool, refused: set<nat>, p: Params, t: TaskId)
    requires Inv(s, p) && Holds(c, s, p, t) && Timeouts(s, keys, third, refused, p).Go?
    ensures Holds(c, Timeouts(s, keys, third, refused, p).state, p, t)
  {
    if CutoffOf(s, third, p) > 0 {
      CollectedTasks(TierOf(s, third).pending, keys, t);
      assert AuditOk(s, p, t);
      SweepHolds(c, s, Collect(TierOf(s, third).pending, keys), keys, third, refused, p, t);
    }
  }

  /** A record is cleaned up no earlier than the entry made with it is due. */
  lemma CleanupHolds(c: Claim, s: State, p: Params, t: TaskId)
    requires Inv(s, p) && Holds(c, s, p, t)
    requires c.Waits? ==> c.due == 0 && p.secondTimeout <= p.cleanupBuffer + 1
    ensures Holds(if c.Waits? then Waits(s.height - p.secondTimeout) else c, Cleanup(s, p), p, t)
  {
  }

  lemma BlockHolds(c: Claim, s: State, scan2: seq<TimeoutKey>, scan3: seq<TimeoutKey>, refused: set<nat>, p: Params,
                   t: TaskId)
    requires Inv(s, p) && Enabled(s, EndBlockStep(scan2, scan3, refused), p) && Holds(c, s, p, t)
    requires c.Waits? ==> c.due == 0 && t != [] && p.secondTimeout <= p.cleanupBuffer + 1
    ensures Holds(c, EndBlock(s, scan2, scan3, refused, p).state, p, t)
  {
    var s1, s2 := BlockParts(s, scan2, scan3, refused, p);
    var c1 := if c.Waits? then Waits(s.height - p.secondTimeout) else c;
    CleanupHolds(c, s, p, t);
    CleanupKeeps(s, p);
    TimeoutsHold(c1, Cleanup(s, p), scan2, false, refused, p, t);
    TimeoutsKeep(Cleanup(s, p), scan2, false, refused, p);
    DueAreGone(s.second, false, s1.second, s.height - p.secondTimeout);
    assert Holds(c, s1, p, t);
    TimeoutsHold(c, s1, scan3, true, refused, p, t);
    UntouchedHolds(c, s2, s2.(height := s2.height + 1), p, t);
  }

  lemma {:induction false} ReservesHold(c: Claim, s: State, es: seq<ReserveEntry>, p: Params, t: TaskId)
    requires Holds(c, s, p, t) && ReserveAll(s, es).Go?
    ensures Holds(c, ReserveAll(s, es).state, p, t)
    decreases |es|
  {
    if es != [] {
      UntouchedHolds(c, s, Reserve(s, es[0]).state, p, t);
      ReservesHold(c, Reserve(s, es[0]).state, es[1..], p, t);
    }
  }

  lemma AccountsHold(c: Claim, s: State, s2: State, p: Params, t: TaskId)
    requires Holds(c, s, p, t) && s2 == s.(accounts := s2.accounts, bank := s2.bank)
    ensures Holds(c, s2, p, t)
  {
    UntouchedHolds(c, s, s2, p, t);
  }

  lemma StepHolds(c: Claim, s: State, step: Step, p: Params, t: TaskId)
    requires Inv(s, p) && Enabled(s, step, p) && Holds(c, s, p, t)
    requires c.Waits? ==> c.due == 0 && t != [] && p.secondTimeout <= p.cleanupBuffer + 1
    ensures Holds(c, Apply(s, step, p), p, t)
  {
    match step
    case ReserveStep(header, entries) => if header && ReserveAll(s, entries).Go? { ReservesHold(c, s, entries, p, t); }
    case SettleStep(header, rows) => if header && SettleAll(s, rows, p).Go? { RowsHold(c, s, rows, p, t); }
    case AuditStep(results) => if AuditAll(s, results, p).Go? { ResultsHold(c, s, results, p, t); }
    case FraudStep(proof) => ProofHolds(c, s, proof, p, t);
    case EndBlockStep(scan2, scan3, refused) => BlockHolds(c, s, scan2, scan3, refused, p, t);
    case _ => AccountsHold(c, s, Apply(s, step, p), p, t);
  }

  lemma {:induction false} RunHolds(c: Claim, s: State, steps: seq<Step>, p: Params, t: TaskId)
    requires Inv(s, p) && IsRun(s, steps, p) && Holds(c, s, p, t)
    requires c.Waits? ==> c.due == 0 && t != [] && p.secondTimeout <= p.cleanupBuffer + 1
    ensures Holds(c, Run(s, steps, p), p, t)
    decreases |steps|
  {
    if steps != [] {
      StepHolds(c, s, steps[0], p, t);
      StepKeeps(s, steps[0], p);
      RunHolds(c, Apply(s, steps[0], p), steps[1..], p, t);
    }
  }

  /** A record of fraud in the state after `before`. */
  ghost predicate FoundOut(bank: Bank, before: seq<Step>, p: Params, t: TaskId) {
    var s := Run(Genesis(bank), before, p);
    IsRun(Genesis(bank), before, p) && t in s.settled && s.settled[t].status == TaskFraud
  }

  lemma ClosedRecordStays(bank: Bank, before: seq<Step>, after: seq<Step>, p: Params, t: TaskId)
    requires FoundOut(bank, before, p, t) && IsRun(Run(Genesis(bank), before, p), after, p)
    requires !Open(Run(Genesis(bank), before, p), p, t)
    ensures var s, s2 := Run(Genesis(bank), before, p), Run(Run(Genesis(bank), before, p), after, p);
            t in s2.settled ==> s2.settled[t] == s.settled[t]
  {
    var s := Run(Genesis(bank), before, p);
    ReachableInv(bank, before, p);
    RunHolds(Final(s.settled[t]), s, after, p, t);
  }

  /** A record turned into TaskFraud stays as it is until it is cleaned up, and never comes back as anything
      else, if up to then the task's own expiry was fixed and safe. */
  lemma FraudRecordStays(bank: Bank, before: seq<Step>, after: seq<Step>, p: Params, t: TaskId, expire: int)
    requires FoundOut(bank, before, p, t) && IsRun(Run(Genesis(bank), before, p), after, p)
    requires Charges.SafeRun(bank, before, p, t, expire)
    ensures var s, s2 := Run(Genesis(bank), before, p), Run(Run(Genesis(bank), before, p), after, p);
            t in s2.settled ==> s2.settled[t] == s.settled[t]
  {
    Charges.RunOnce(Genesis(bank), before, p, t, expire);
    ClosedRecordStays(bank, before, after, p, t);
  }

  /** It also does, whatever the expiries, if audits time out before records are cleaned up. */
  lemma FraudRecordStaysInTime(bank: Bank, before: seq<Step>, after: seq<Step>, p: Params, t: TaskId)
    requires FoundOut(bank, before, p, t) && IsRun(Run(Genesis(bank), before, p), after, p)
    requires t != [] && p.secondTimeout <= p.cleanupBuffer + 1
    ensures var s, s2 := Run(Genesis(bank), before, p), Run(Run(Genesis(bank), before, p), after, p);
            t in s2.settled ==> s2.settled[t] == s.settled[t]
  {
    ReachableInv(bank, [], p);
    RunHolds(Waits(0), Genesis(bank), before, p, t);
    ReachableInv(bank, before, p);
    ClosedRecordStays(bank, before, after, p, t);
  }

  // ---------- Clawbacks ----------

  /** The checks a fraud proof has to pass: it comes from the task's user, names its worker and is in time; a task
      without record or audit must be reserved. */
  ghost predicate Proves(s: State, m: FraudMsg, p: Params) {
    && m.task !in s.fraud && m.worker.Bech32? && m.evidence
    && if m.task in s.settled then
         var r := s.settled[m.task];
         && (r.user == Empty || r.user == m.reporter) && (r.worker == Empty || r.worker == m.worker)
         && (r.settledAt <= 0 || s.height <= r.settledAt + p.fraudWindow)
       else if m.task in s.second.pending then
         var q := s.second.pending[m.task];
         && (q.user == Empty || q.user == m.reporter)
         && (q.submittedAt <= 0 || s.height <= q.submittedAt + p.fraudWindow)
       else m.task in s.reserved
  }

  ghost function RefundTo(r: Settled, m: FraudMsg): Address { if r.user.Bech32? then r.user else m.reporter }

  /** A proof of a settled task whose worker still holds the executor share, for a user the bank pays. */
  ghost predicate Recovers(s: State, m: FraudMsg, p: Params) {
    && Proves(s, m, p) && m.task in s.settled && s.settled[m.task].status == TaskSettled
    && var r := s.settled[m.task];
       && r.fee > 0 && RefundTo(r, m).Bech32? && RefundTo(r, m).account !in m.refused
       && 0 < r.fee * p.ratios.executor / 1000 <= Get(s.bank.wallets, m.worker.account)
  }

  lemma TransferReaches(b: Bank, from: nat, to: nat, amount: nat, refused: set<nat>)
    ensures var moved := Transfer(b, from, to, amount, refused);
            if to in refused || Get(b.wallets, from) < amount then moved.None?
            else
              && moved.Some? && moved.value.pool == b.pool
              && forall a :: Get(moved.value.wallets, a) ==
                   Get(b.wallets, a) - (if a == from then amount else 0) + if a == to then amount else 0
  {
  }

  /** Then exactly that goes from the worker's wallet to the user's; otherwise no wallet changes. */
  lemma ClawbackExact(s: State, m: FraudMsg, p: Params)
    ensures var s2 := FraudProof(s, m, p);
            if Recovers(s, m, p) then
              var r := s.settled[m.task];
              var amount, to := r.fee * p.ratios.executor / 1000, RefundTo(r, m).account;
              && s2.bank.pool == s.bank.pool && Get(s2.hist.clawed, m.task) == Get(s.hist.clawed, m.task) + amount
              && forall a ::
                   Get(s2.bank.wallets, a) == Get(s.bank.wallets, a) - (if a == m.worker.account then amount else 0)
                                                                     + if a == to then amount else 0
            else s2.bank == s.bank && s2.hist.clawed == s.hist.clawed
  {
    assert Proves(s, m, p) <==> !FraudRejected(s, m, p);
    if Proves(s, m, p) && m.task in s.settled && s.settled[m.task].fee > 0 && RefundTo(s.settled[m.task], m).Bech32? {
      var r := s.settled[m.task];
      TransferReaches(s.bank, m.worker.account, RefundTo(r, m).account, PerMille(r.fee, p.ratios.executor), m.refused);
    }
  }

  /** A proof that passes the checks marks the task, and its record if it was settled; any other changes nothing. */
  lemma ProofFate(s: State, m: FraudMsg, p: Params)
    ensures var s2 := FraudProof(s, m, p);
            if !Proves(s, m, p) then s2 == s
            else
              && s2.fraud == s.fraud + {m.task} && s2.accounts == s.accounts && s2.reserved == s.reserved
              && s2.second == s.second && s2.third == s.third
              && s2.settled == if m.task in s.settled && s.settled[m.task].status == TaskSettled
                               then s.settled[m.task := s.settled[m.task].(status := TaskFraud)] else s.settled
  {
    assert Proves(s, m, p) <==> !FraudRejected(s, m, p);
    if Proves(s, m, p) {
      ConvictEffect(s, m, p);
      forall t { FraudRecord(s, m, p, t); }
    }
  }

  lemma {:induction false} ClawbackRun(s: State, steps: seq<Step>, p: Params, t: TaskId)
    requires ClawOk(s, p, t)
    ensures ClawOk(Run(s, steps, p), p, t)
    decreases |steps|
  {
    if steps != [] {
      if !steps[0].BankStep? { StepBooks(s, steps[0], p); }
      ClawbackRun(Apply(s, steps[0], p), steps[1..], p, t);
    }
  }

  /** No run recovers more from a worker than that worker was paid for the task, and nothing at all
      before a fraud proof. */
  lemma ClawbackWithinPayment(bank: Bank, steps: seq<Step>, p: Params, t: TaskId)
    ensures var s := Run(Genesis(bank), steps, p);
            && Get(s.hist.clawed, t) <= Get(s.hist.workerPaid, t)
            && (t !in s.fraud ==> Get(s.hist.clawed, t) == 0)
  {
    ClawbackRun(Genesis(bank), steps, p, t);
  }
}
