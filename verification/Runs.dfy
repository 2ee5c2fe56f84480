/** Runs of the ledger: any mix of messages and blocks, with what every run keeps. */
module Runs {
  import opened Sums
  import opened FeeSplit
  import opened Ledger
  import opened Effects

  datatype Step =
    | DepositStep(who: nat, coin: Coin, refusal: bool)
    | WithdrawStep(who: nat, coin: Coin, refused: set<nat>)
    | ReserveStep(header: bool, entries: seq<ReserveEntry>)
    | SettleStep(header: bool, rows: seq<EntryInput>)
    | AuditStep(results: seq<AuditInput>)
    | FraudStep(proof: FraudMsg)
    | EndBlockStep(scan2: seq<TimeoutKey>, scan3: seq<TimeoutKey>, refused: set<nat>)
    | BankStep(bank: Bank) // everything else that moves coins: rewards, fund sweeps, transfers

  /** Scans really are scans of the two indexes, and the end of a block does not panic. */
  ghost predicate Enabled(s: State, step: Step, p: Params) {
    step.EndBlockStep? ==>
      && IsScan(step.scan2, s.second.index, s.height - p.secondTimeout)
      && IsScan(step.scan3, s.third.index, s.height - p.thirdTimeout)
      && EndBlock(s, step.scan2, step.scan3, step.refused, p).Go?
  }

  /** One step. A batch with a bad header (count, signature or Merkle root) is rejected whole. */
  function Apply(s: State, step: Step, p: Params): State {
    match step
    case DepositStep(who, coin, refusal) => Deposit(s, who, coin, refusal)
    case WithdrawStep(who, coin, refused) => Withdraw(s, who, coin, refused)
    case ReserveStep(header, entries) => if header then Commit(s, ReserveAll(s, entries)) else s
    case SettleStep(header, rows) => if header then Commit(s, SettleAll(s, rows, p)) else s
    case AuditStep(results) => Commit(s, AuditAll(s, results, p))
    case FraudStep(proof) => FraudProof(s, proof, p)
    case EndBlockStep(scan2, scan3, refused) => Commit(s, EndBlock(s, scan2, scan3, refused, p))
    case BankStep(bank) => s.(bank := bank)
  }

  function Run(s: State, steps: seq<Step>, p: Params): State
    decreases |steps|
  {
    if steps == [] then s else Run(Apply(s, steps[0], p), steps[1..], p)
  }

  ghost predicate IsRun(s: State, steps: seq<Step>, p: Params)
    decreases |steps|
  {
    steps == [] || (Enabled(s, steps[0], p) && IsRun(Apply(s, steps[0], p), steps[1..], p))
  }

  lemma {:induction false} RunAppend(s: State, a: seq<Step>, b: seq<Step>, p: Params)
    ensures Run(s, a + b, p) == Run(Run(s, a, p), b, p)
    ensures IsRun(s, a + b, p) <==> IsRun(s, a, p) && IsRun(Run(s, a, p), b, p)
    decreases |a|
  {
    if a == [] {
      assert a + b == b;
    } else {
      assert (a + b)[1..] == a[1..] + b;
      RunAppend(Apply(s, a[0], p), a[1..], b, p);
    }
  }

  lemma RunOne(s: State, step: Step, p: Params)
    ensures Run(s, [step], p) == Apply(s, step, p) && (IsRun(s, [step], p) <==> Enabled(s, step, p))
  {
    assert [step][1..] == [];
  }

  lemma RunCons(s: State, step: Step, steps: seq<Step>, p: Params)
    ensures Run(s, [step] + steps, p) == Run(Apply(s, step, p), steps, p)
    ensures IsRun(s, [step] + steps, p) <==> Enabled(s, step, p) && IsRun(Apply(s, step, p), steps, p)
  {
    assert ([step] + steps)[1..] == steps;
  }

  /** A batch of one row. */
  lemma OneRow(s: State, x: EntryInput, s2: State, p: Params)
    requires SettleEntry(s, x, p) == Go(s2)
    ensures Apply(s, SettleStep(true, [x]), p) == s2
  {
    assert [x][1..] == [] && SettleAll(s2, [], p) == Go(s2);
  }

  const NOTHING := History(map[], map[], map[], map[], map[], map[], map[], true, true, 0, 0, 0, {}, true, {})

  /** Genesis: block 1, nobody has deposited. */
  function Genesis(bank: Bank): State {
    State(1, map[], map[], map[], {}, Tier(map[], {}), Tier(map[], {}), map[], bank, NOTHING)
  }

  // ---------- What no step undoes ----------

  /** First records, fraud marks and accounts stay; debits only add up; and once a task is
      marked as fraud nobody is charged and no worker is paid for it. */
  ghost predicate Advances(s: State, s2: State) {
    && s.height <= s2.height
    && s.fraud <= s2.fraud && s.hist.defrauded <= s2.hist.defrauded
    && s.accounts.Keys <= s2.accounts.Keys
    && (forall t :: t in s.hist.firstAt ==> t in s2.hist.firstAt && s2.hist.firstAt[t] == s.hist.firstAt[t])
    && (forall t :: Get(s.hist.charges, t) <= Get(s2.hist.charges, t))
    && (forall t :: t in s.fraud ==>
          Get(s2.hist.charges, t) == Get(s.hist.charges, t) &&
          Get(s2.hist.workerPaid, t) == Get(s.hist.workerPaid, t))
    && (s2.hist.owned ==> s.hist.owned) && (s2.hist.covered ==> s.hist.covered)
  }

  /** Nothing that was pending is lost: it is still pending (possibly one tier up), or the task
      has a record or a fraud mark. */
  ghost predicate Lands(s: State, s2: State) {
    && s.settled.Keys <= s2.settled.Keys && s.fraud <= s2.fraud
    && (forall t :: t in s.second.pending ==>
          t in s2.second.pending || t in s2.third.pending || t in s2.settled || t in s2.fraud)
    && (forall t :: t in s.third.pending ==> t in s2.third.pending || t in s2.settled || t in s2.fraud)
  }

  ghost predicate Moves(s: State, s2: State) {
    Advances(s, s2) && Lands(s, s2) && Shrinks(s, s2) && s2.height == s.height
  }

  lemma MovesTransitive(a: State, b: State, c: State)
    requires Moves(a, b) && Moves(b, c)
    ensures Moves(a, c)
  {
  }

  lemma QuietMoves(s: State, s2: State)
    requires Quiet(s, s2)
    ensures Moves(s, s2)
  {
  }

  lemma SettlesMoves(s: State, s2: State, j: Job, n: nat)
    requires Settles(s, s2, j, n) && j.task !in s.fraud
    ensures Moves(s, s2)
  {
  }

  lemma RecordMoves(s: State, j: Job)
    ensures Moves(s, Record(s, j, TaskFailed, 0))
  {
  }

  lemma DropMoves(s: State, t: TaskId, third: bool, index: set<TimeoutKey>)
    requires t in s.settled || t in s.fraud
    ensures Moves(s, WithTier(s, third, Tier(TierOf(s, third).pending - {t}, index)))
  {
  }

  lemma SettleEntryMoves(s: State, x: EntryInput, p: Params)
    requires SettleEntry(s, x, p).Go?
    ensures Moves(s, SettleEntry(s, x, p).state)
  {
    if SettledNow(s, x, p) {
      SettleEntryEffect(s, x, p);
      var s2 := SettleEntry(s, x, p).state;
      if Quiet(s, s2) { QuietMoves(s, s2); }
      else { SettlesMoves(s, s2, JobOf(x.entry), if Settles(s, s2, JobOf(x.entry), 0) then 0 else 1); }
    }
  }

  lemma SettleAuditedMoves(s: State, apt: Pending, asSuccess: bool, override: Tokens.uint32, refused: set<nat>,
                           p: Params)
    requires SettleAudited(s, apt, asSuccess, override, refused, p).Done?
    ensures var v := SettleAudited(s, apt, asSuccess, override, refused, p);
            && Moves(s, v.state) && Beside(s, v.state)
            && (v.settled ==> apt.task in v.state.settled || apt.task in v.state.fraud)
  {
    SettleAuditedEffect(s, apt, asSuccess, override, refused, p);
    var v := SettleAudited(s, apt, asSuccess, override, refused, p);
    if v.settled && apt.task !in s.fraud { SettlesMoves(s, v.state, AuditJob(apt), 1); }
    else { QuietMoves(s, v.state); }
  }

  lemma FailAndDropMoves(s: State, apt: Pending)
    ensures var s2 := Record(s, AuditJob(apt), TaskFailed, 0);
            Moves(s, s2.(second := Drop(s2.second, apt.task)))
  {
    var s2 := Record(s, AuditJob(apt), TaskFailed, 0);
    RecordMoves(s, AuditJob(apt));
    DropMoves(s2, apt.task, false, Drop(s2.second, apt.task).index);
    assert Drop(s2.second, apt.task).pending == s2.second.pending - {apt.task};
    MovesTransitive(s, s2, s2.(second := Drop(s2.second, apt.task)));
  }

  lemma TokenFraudMoves(s: State, apt: Pending, ar: AuditRecord, refused: set<nat>, p: Params)
    requires SettleTokenFraud(s, apt, ar, refused, p).Go?
    ensures Moves(s, SettleTokenFraud(s, apt, ar, refused, p).state)
  {
    var s1 := if apt.user.Bech32? then Unfreeze(s, apt.user.account, apt.task) else s;
    AfterRelease(s, if apt.user.Bech32? then apt.user.account else 0, apt.task, s1, AuditJob(apt));
    QuietMoves(s, s1);
    FailAndDropMoves(s1, apt);
    var s2 := Record(s1, AuditJob(apt), TaskFailed, 0);
    var s3 := s2.(second := Drop(s2.second, apt.task));
    SettleAuditedMoves(s3, apt, false, Tokens.Median(ar.outTokens), refused, p);
    MovesTransitive(s, s1, s3);
    MovesTransitive(s, s3, SettleTokenFraud(s, apt, ar, refused, p).state);
  }

  lemma SettleByAuditMoves(s: State, apt: Pending, ar: AuditRecord, refused: set<nat>, p: Params)
    requires SettleByAudit(s, apt, ar, refused, p).Go?
    ensures Moves(s, SettleByAudit(s, apt, ar, refused, p).state)
  {
    var asSuccess := AuditPass(ar, p) && (apt.status == SUCCESS || apt.status == FAIL);
    SettleAuditedMoves(s, apt, asSuccess, 0, refused, p);
    var v := SettleAudited(s, apt, asSuccess, 0, refused, p);
    if v.settled {
      DropMoves(v.state, apt.task, false, Drop(v.state.second, apt.task).index);
      assert Drop(v.state.second, apt.task).pending == v.state.second.pending - {apt.task};
      MovesTransitive(s, v.state, SettleByAudit(s, apt, ar, refused, p).state);
    }
  }

  lemma JudgeMoves(s0: State, apt: Pending, ar: AuditRecord, escalate: bool, refused: set<nat>, p: Params)
    requires Judge(s0, apt, ar, escalate, refused, p).Go?
    ensures Moves(s0, Judge(s0, apt, ar, escalate, refused, p).state)
  {
    var s := CountJudgment(s0, apt.task);
    assert Moves(s0, s);
    if !apt.third && !escalate {
      if TokenFraud(apt, ar, p) { TokenFraudMoves(s, apt, ar, refused, p); }
      else if apt.status == SUCCESS && !AuditPass(ar, p) { FailAndDropMoves(s, apt); }
      else { SettleByAuditMoves(s, apt, ar, refused, p); }
      MovesTransitive(s0, s, Judge(s0, apt, ar, escalate, refused, p).state);
    }
  }

  lemma AuditResultMoves(s: State, m: AuditInput, p: Params)
    requires AuditResult(s, m, p).Go?
    ensures Moves(s, AuditResult(s, m, p).state)
  {
    if !AuditRejected(s, m, p) {
      var was := if m.task in s.audits then s.audits[m.task] else AuditRecord([], [], [], [], 0);
      var ar := Extend(was, m, s.height);
      var s1 := s.(audits := s.audits[m.task := ar]);
      assert Moves(s, s1);
      if |ar.results| >= p.secondVerifiers {
        JudgeMoves(s1, s.second.pending[m.task], ar, m.escalate, m.refused, p);
        MovesTransitive(s, s1, AuditResult(s, m, p).state);
      }
    }
  }

  lemma FinishMoves(s: State, apt: Pending, key: TimeoutKey, third: bool, refused: set<nat>, p: Params)
    requires Finish(s, apt, key, third, refused, p).Go?
    ensures var s1 := Finish(s, apt, key, third, refused, p).state; Moves(s, s1)
  {
    SettleAuditedMoves(s, apt, TimeoutSuccess(s, apt, third, p), 0, refused, p);
    var v := SettleAudited(s, apt, TimeoutSuccess(s, apt, third, p), 0, refused, p);
    var s1 := if v.settled then v.state else Record(v.state, AuditJob(apt), TaskFailed, 0);
    RecordMoves(v.state, AuditJob(apt));
    DropMoves(s1, apt.task, third, TierOf(s1, third).index - {key});
    MovesTransitive(s, v.state, s1);
    MovesTransitive(s, s1, Finish(s, apt, key, third, refused, p).state);
  }

  lemma {:induction false} SweepMoves(s: State, apts: seq<Pending>, keys: seq<TimeoutKey>, third: bool,
                                      refused: set<nat>, p: Params)
    requires |apts| <= |keys| && Sweep(s, apts, keys, third, refused, p).Go?
    ensures Moves(s, Sweep(s, apts, keys, third, refused, p).state)
    decreases |apts|
  {
    if apts != [] {
      FinishMoves(s, apts[0], keys[0], third, refused, p);
      var s1 := Finish(s, apts[0], keys[0], third, refused, p).state;
      SweepMoves(s1, apts[1..], keys[1..], third, refused, p);
    }
  }

  lemma TimeoutsMove(s: State, keys: seq<TimeoutKey>, third: bool, refused: set<nat>, p: Params)
    requires Timeouts(s, keys, third, refused, p).Go?
    ensures var s2 := Timeouts(s, keys, third, refused, p).state; Moves(s, s2)
  {
    if s.height > if third then p.thirdTimeout else p.secondTimeout {
      SweepMoves(s, Collect(TierOf(s, third).pending, keys), keys, third, refused, p);
    }
  }

  /** A scan that finds no key changes nothing. */
  lemma NothingSwept(s: State, third: bool, p: Params)
    ensures Timeouts(s, [], third, {}, p) == Go(s)
  {
    assert Collect(TierOf(s, third).pending, []) == [];
  }

  /** The states within one block. */
  lemma BlockParts(s: State, scan2: seq<TimeoutKey>, scan3: seq<TimeoutKey>, refused: set<nat>, p: Params)
    returns (s1: State, s2: State)
    requires EndBlock(s, scan2, scan3, refused, p).Go?
    ensures Timeouts(Cleanup(s, p), scan2, false, refused, p) == Go(s1)
    ensures Timeouts(s1, scan3, true, refused, p) == Go(s2)
    ensures EndBlock(s, scan2, scan3, refused, p) == Go(s2.(height := s2.height + 1))
  {
    s1 := Timeouts(Cleanup(s, p), scan2, false, refused, p).state;
    s2 := Timeouts(s1, scan3, true, refused, p).state;
  }

  lemma EndBlockAdvances(s: State, scan2: seq<TimeoutKey>, scan3: seq<TimeoutKey>, refused: set<nat>, p: Params)
    requires EndBlock(s, scan2, scan3, refused, p).Go?
    ensures var s2 := EndBlock(s, scan2, scan3, refused, p).state;
            Advances(s, s2) && Lands(Cleanup(s, p), s2) && Shrinks(s, s2) && s2.height == s.height + 1
  {
    var s0 := Cleanup(s, p);
    TimeoutsMove(s0, scan2, false, refused, p);
    var s1 := Timeouts(s0, scan2, false, refused, p).state;
    TimeoutsMove(s1, scan3, true, refused, p);
    MovesTransitive(s0, s1, Timeouts(s1, scan3, true, refused, p).state);
  }

  lemma {:induction false} RowsMove(s: State, xs: seq<EntryInput>, p: Params)
    requires SettleAll(s, xs, p).Go?
    ensures Moves(s, SettleAll(s, xs, p).state)
    decreases |xs|
  {
    if xs != [] {
      SettleEntryMoves(s, xs[0], p);
      RowsMove(SettleEntry(s, xs[0], p).state, xs[1..], p);
    }
  }

  lemma {:induction false} ReservesMove(s: State, es: seq<ReserveEntry>)
    requires ReserveAll(s, es).Go?
    ensures var s2 := ReserveAll(s, es).state; Advances(s, s2) && Lands(s, s2) && s2.height == s.height
    decreases |es|
  {
    if es != [] {
      assert Advances(s, Reserve(s, es[0]).state);
      ReservesMove(Reserve(s, es[0]).state, es[1..]);
    }
  }

  lemma {:induction false} AuditsMove(s: State, ms: seq<AuditInput>, p: Params)
    requires AuditAll(s, ms, p).Go?
    ensures Moves(s, AuditAll(s, ms, p).state)
    decreases |ms|
  {
    if ms != [] {
      AuditResultMoves(s, ms[0], p);
      AuditsMove(AuditResult(s, ms[0], p).state, ms[1..], p);
    }
  }

  /** No step loses an audit: a pending entry only disappears in favour of a record, a fraud mark
      or a third-tier entry. This holds in every state, whatever the inputs. */
  lemma NoOrphanedAudit(s: State, step: Step, p: Params, t: TaskId)
    ensures var s2 := Apply(s, step, p);
            && (t in s.second.pending && t !in s2.second.pending ==>
                  t in s2.settled || t in s2.fraud || t in s2.third.pending)
            && (t in s.third.pending && t !in s2.third.pending ==> t in s2.settled || t in s2.fraud)
  {
    match step
    case ReserveStep(header, entries) =>
      if header && ReserveAll(s, entries).Go? { ReservesMove(s, entries); }
    case SettleStep(header, rows) =>
      if header && SettleAll(s, rows, p).Go? { RowsMove(s, rows, p); }
    case AuditStep(results) =>
      if AuditAll(s, results, p).Go? { AuditsMove(s, results, p); }
    case FraudStep(proof) => FraudTiers(s, proof, p);
    case EndBlockStep(scan2, scan3, refused) =>
      if EndBlock(s, scan2, scan3, refused, p).Go? { EndBlockAdvances(s, scan2, scan3, refused, p); }
    case _ =>
  }

  // ---------- The third tier ----------

  /** Entries of the third tier stay. */
  ghost predicate ThirdStays(s: State, s2: State) { s.third.pending.Keys <= s2.third.pending.Keys }

  lemma JudgeThird(s0: State, apt: Pending, ar: AuditRecord, escalate: bool, refused: set<nat>, p: Params)
    requires Judge(s0, apt, ar, escalate, refused, p).Go?
    ensures ThirdStays(s0, Judge(s0, apt, ar, escalate, refused, p).state)
  {
    var s := CountJudgment(s0, apt.task);
    if !apt.third && !escalate {
      if TokenFraud(apt, ar, p) {
        var s1 := if apt.user.Bech32? then Unfreeze(s, apt.user.account, apt.task) else s;
        var s2 := Record(s1, AuditJob(apt), TaskFailed, 0);
        var s3 := s2.(second := Drop(s2.second, apt.task));
        SettleAuditedEffect(s3, apt, false, Tokens.Median(ar.outTokens), refused, p);
      } else if !(apt.status == SUCCESS && !AuditPass(ar, p)) {
        var asSuccess := AuditPass(ar, p) && (apt.status == SUCCESS || apt.status == FAIL);
        SettleAuditedEffect(s, apt, asSuccess, 0, refused, p);
      }
    }
  }

  lemma {:induction false} AuditsThird(s: State, ms: seq<AuditInput>, p: Params)
    requires AuditAll(s, ms, p).Go?
    ensures ThirdStays(s, AuditAll(s, ms, p).state)
    decreases |ms|
  {
    if ms != [] {
      AuditResultThird(s, ms[0], p);
      AuditsThird(AuditResult(s, ms[0], p).state, ms[1..], p);
    }
  }

  lemma AuditResultThird(s: State, m: AuditInput, p: Params)
    requires AuditResult(s, m, p).Go?
    ensures ThirdStays(s, AuditResult(s, m, p).state)
  {
    if !AuditRejected(s, m, p) {
      var was := if m.task in s.audits then s.audits[m.task] else AuditRecord([], [], [], [], 0);
      var ar := Extend(was, m, s.height);
      if |ar.results| >= p.secondVerifiers {
        JudgeThird(s.(audits := s.audits[m.task := ar]), s.second.pending[m.task], ar, m.escalate, m.refused, p);
      }
    }
  }

  lemma {:induction false} RowsThird(s: State, xs: seq<EntryInput>, p: Params)
    requires SettleAll(s, xs, p).Go?
    ensures ThirdStays(s, SettleAll(s, xs, p).state)
    decreases |xs|
  {
    if xs != [] {
      var x := xs[0];
      if SettledNow(s, x, p) { SettleEntryEffect(s, x, p); }
      RowsThird(SettleEntry(s, x, p).state, xs[1..], p);
    }
  }

  lemma {:induction false} ReservesThird(s: State, es: seq<ReserveEntry>)
    requires ReserveAll(s, es).Go?
    ensures ThirdStays(s, ReserveAll(s, es).state)
    decreases |es|
  {
    if es != [] { ReservesThird(Reserve(s, es[0]).state, es[1..]); }
  }

  /** A third-tier audit is resolved by the end of a block and by nothing else. */
  lemma ThirdTierOnlyTimesOut(s: State, step: Step, p: Params, t: TaskId)
    requires t in s.third.pending && !step.EndBlockStep?
    ensures t in Apply(s, step, p).third.pending
  {
    match step
    case ReserveStep(header, entries) =>
      if header && ReserveAll(s, entries).Go? { ReservesThird(s, entries); }
    case SettleStep(header, rows) =>
      if header && SettleAll(s, rows, p).Go? { RowsThird(s, rows, p); }
    case AuditStep(results) =>
      if AuditAll(s, results, p).Go? { AuditsThird(s, results, p); }
    case FraudStep(proof) => FraudEffect(s, proof, p);
    case _ =>
  }

  lemma FraudTiers(s: State, m: FraudMsg, p: Params)
    ensures var s2 := FraudProof(s, m, p);
            s2.second == s.second && s2.third == s.third && Advances(s, s2) && Shrinks(s, s2)
  {
    FraudEffect(s, m, p);
  }

  lemma StepAdvances(s: State, step: Step, p: Params)
    ensures Advances(s, Apply(s, step, p))
  {
    match step
    case ReserveStep(header, entries) =>
      if header && ReserveAll(s, entries).Go? { ReservesMove(s, entries); }
    case SettleStep(header, rows) =>
      if header && SettleAll(s, rows, p).Go? { RowsMove(s, rows, p); }
    case AuditStep(results) =>
      if AuditAll(s, results, p).Go? { AuditsMove(s, results, p); }
    case FraudStep(proof) => FraudTiers(s, proof, p);
    case EndBlockStep(scan2, scan3, refused) =>
      if EndBlock(s, scan2, scan3, refused, p).Go? { EndBlockAdvances(s, scan2, scan3, refused, p); }
    case _ =>
  }

  /** Only a reservation message reserves anything. */
  lemma StepShrinks(s: State, step: Step, p: Params)
    requires !step.ReserveStep?
    ensures Shrinks(s, Apply(s, step, p))
  {
    match step
    case SettleStep(header, rows) =>
      if header && SettleAll(s, rows, p).Go? { RowsMove(s, rows, p); }
    case AuditStep(results) =>
      if AuditAll(s, results, p).Go? { AuditsMove(s, results, p); }
    case FraudStep(proof) => FraudTiers(s, proof, p);
    case EndBlockStep(scan2, scan3, refused) =>
      if EndBlock(s, scan2, scan3, refused, p).Go? { EndBlockAdvances(s, scan2, scan3, refused, p); }
    case _ =>
  }

  lemma {:induction false} RunAdvances(s: State, steps: seq<Step>, p: Params)
    ensures Advances(s, Run(s, steps, p))
    decreases |steps|
  {
    if steps != [] {
      StepAdvances(s, steps[0], p);
      RunAdvances(Apply(s, steps[0], p), steps[1..], p);
    }
  }
}
