/** Where underwriting stops: an audited settlement releases the reservation before it pays, and the
    release is kept when the payout fails (x/settlement/keeper/keeper.go:2063-2132). The task stays pending
    without a reservation, so the user may withdraw what it was to be paid from. */
module Uncovered {
  import opened FeeSplit
  import opened Ledger
  import opened Effects
  import opened Runs
  import opened Verdicts
  import Underwriting

  /** Every audited settlement that fails after its checks has already released its reservation. */
  lemma FailedPayoutReleases(s: State, apt: Pending, asSuccess: bool, override: Tokens.uint32, refused: set<nat>,
                             p: Params)
    requires apt.task !in s.fraud && Payable(s, AuditJob(apt)) && apt.task in s.reserved
    requires var v := SettleAudited(s, apt, asSuccess, override, refused, p); v.Done? && !v.settled
    ensures var s1 := SettleAudited(s, apt, asSuccess, override, refused, p).state;
            && s1.reserved == s.reserved - {apt.task} && s1.second == s.second && s1.third == s.third
            && s1.accounts[apt.user.account].balance == s.accounts[apt.user.account].balance
            && Available(s1.accounts[apt.user.account]) >= Available(s.accounts[apt.user.account])
  {
  }

  // ---------- A run ----------

  const A: TaskId := [1]
  const B: TaskId := [2]

  /** One second verifier, one-block timeouts. */
  function Quick(): Params { Params(Ratios(850, 120, 30), 150, 1, 1, 1000, 1, 1, false, 2, 2, 17280) }

  function Task(): Entry {
    Entry(A, Bech32(1), Bech32(2), [], Coin(Ufai, 100), SUCCESS, 0,
          [1], [1], [[1], [1], [1]], 0, 0, Coin(Ufai, 0), 0, 0)
  }

  const DEPOSIT := DepositStep(1, Coin(Ufai, 200), false)
  const RESERVE := ReserveStep(true, [ReserveEntry(Bech32(1), A, Coin(Ufai, 100), 0),
                                      ReserveEntry(Bech32(1), B, Coin(Ufai, 100), 0)])
  function Settle(): Step { SettleStep(true, [EntryInput(Task(), true, {})]) }
  const JUDGE := AuditStep([AuditInput(A, Bech32(3), true, 0, 0, true, false, {2})]) // the bank refuses the worker
  const WITHDRAW := WithdrawStep(1, Coin(Ufai, 100), {})
  const TICK1 := EndBlockStep([], [], {})
  const TICK2 := EndBlockStep([(1, A)], [], {})

  /** The user's account, what is reserved, and the bank; no task was marked as fraud. */
  ghost predicate Shows(s: State, height: int, balance: nat, frozen: nat, reserved: map<TaskId, nat>, pool: nat) {
    && s.height == height && s.accounts == map[1 := Account(balance, frozen, frozen > 0)] && s.reserved == reserved
    && s.bank.pool == pool && s.fraud == {} && s.third == Tier(map[], {})
  }

  /** Task A awaits its audit. */
  ghost predicate Awaits(s: State) {
    s.second == Tier(map[A := PendingOf(Task(), 1)], {(1, A)})
  }

  lemma Reserved(s: State)
    requires Shows(s, 1, 200, 0, map[], 200) && s.settled == map[]
    ensures var s2 := Apply(s, RESERVE, Quick());
            && Shows(s2, 1, 200, 200, map[A := 100, B := 100], 200)
            && s2.settled == map[] && s2.second == s.second && s2.audits == s.audits
  {
    var es := RESERVE.entries;
    var s1 := Reserve(s, es[0]).state;
    assert Reserve(s, es[0]) == Go(Freeze(s, 1, A, 100));
    assert Reserve(s1, es[1]) == Go(Freeze(s1, 1, B, 100));
    assert es[1..] == [es[1]] && es[1..][1..] == [];
    assert ReserveAll(s1, es[1..]) == Go(Freeze(s1, 1, B, 100));
  }

  lemma Audited(s: State)
    requires Shows(s, 1, 200, 200, map[A := 100, B := 100], 200) && s.settled == map[] && s.second == Tier(map[], {})
    ensures var s2 := Apply(s, Settle(), Quick());
            Shows(s2, 1, 200, 200, map[A := 100, B := 100], 200) && Awaits(s2) && s2.audits == s.audits
            && (forall t :: t in s2.settled ==> s2.settled[t].expire == 0)
  {
    var x := EntryInput(Task(), true, {});
    assert SignaturesPresent(Task()) && !IsPerToken(Task());
    assert SettleEntry(s, x, Quick()) == Go(OpenAudit(s, Task()));
    assert [x][1..] == [];
  }

  lemma Judged(s: State)
    requires Shows(s, 1, 200, 200, map[A := 100, B := 100], 200) && Awaits(s) && s.audits == map[]
    ensures var s2 := Apply(s, JUDGE, Quick());
            Shows(s2, 1, 200, 100, map[B := 100], 200) && Awaits(s2) && s2.settled == s.settled
  {
    var m, apt := JUDGE.results[0], PendingOf(Task(), 1);
    assert !AuditRejected(s, m, Quick());
    var ar := AuditRecord([Bech32(3)], [true], [0], [0], 1);
    var s1 := s.(audits := s.audits[A := ar]);
    assert Extend(AuditRecord([], [], [], [], 0), m, 1) == ar;
    assert AuditResult(s, m, Quick()) == Judge(s1, apt, ar, false, {2}, Quick());
    assert CountPass([true]) == 1 by { assert [true][1..] == []; }
    var s2 := CountJudgment(s1, A);
    assert AuditPass(ar, Quick()) && !TokenFraud(apt, ar, Quick());
    Refused(s2, apt);
    var s3 := Unfreeze(s2, 1, A);
    assert SettleByAudit(s2, apt, ar, {2}, Quick()) == Go(s3);
    assert AuditResult(s, m, Quick()) == Go(s3);
    assert [m][1..] == [] && AuditAll(s3, [], Quick()) == Go(s3);
    assert AuditAll(s, [m], Quick()) == Go(s3);
  }

  lemma Refused(s: State, apt: Pending)
    requires Shows(s, 1, 200, 200, map[A := 100, B := 100], 200) && apt == PendingOf(Task(), 1)
    ensures SettleAudited(s, apt, true, 0, {2}, Quick()) == Done(Unfreeze(s, 1, A), false)
    ensures Shows(Unfreeze(s, 1, A), 1, 200, 100, map[B := 100], 200)
  {
    var s1 := Unfreeze(s, 1, A);
    assert s1.reserved == map[B := 100];
    var ps := SuccessPayouts(100, 2, apt.verifiers, Quick().ratios);
    PayAllSucceeds(s1.bank, ps, {2});
    assert ps[0].to == 2;
  }

  /** The retry pays the worker out of what the user still has. */
  lemma PaidLate(s: State, apt: Pending, p: Params)
    requires Shows(s, 2, 100, 100, map[B := 100], 100)
    requires apt.task == A && apt.user == Bech32(1) && apt.worker == Bech32(2) && BaseFee(apt, 0) == Some(100)
    ensures var v := SettleAudited(s, apt, true, 0, {}, p);
            && v.Done? && v.settled && v.state.accounts == map[1 := Account(0, 100, true)]
            && v.state.height == 2 && v.state.second == s.second && v.state.third == s.third
  {
    var j := AuditJob(apt);
    assert Unfreeze(s, 1, A) == s && BankPays(s, j, {}, p);
    PayoutsGoThrough(s, j, 100, {}, p);
    var s2 := PaySuccess(s, j, 100, {}, p).value;
    assert SettleAudited(s, apt, true, 0, {}, p) == Done(s2, true);
    LateDebit(s, j, p);
  }

  lemma LateDebit(s: State, j: Job, p: Params)
    requires s.accounts == map[1 := Account(100, 100, true)] && j.user == Bech32(1) && Payable(s, j)
    requires PaySuccess(s, j, 100, {}, p).Some?
    ensures var s2 := PaySuccess(s, j, 100, {}, p).value;
            && s2.accounts == map[1 := Account(0, 100, true)]
            && s2.height == s.height && s2.second == s.second && s2.third == s.third
  {
    Underwriting.SuccessDebits(s, j, 100, {}, p);
    PaySuccessEffect(s, j, 100, {}, p);
  }

  lemma SweptLate(s: State, apt: Pending)
    requires Shows(s, 2, 100, 100, map[B := 100], 100) && apt == PendingOf(Task(), 1)
    ensures var f := Sweep(s, [apt], [(1, A)], false, {}, Quick());
            && f.Go? && f.state.accounts == map[1 := Account(0, 100, true)]
            && f.state.height == 2 && f.state.third == s.third
  {
    PaidLate(s, apt, Quick());
    var v := SettleAudited(s, apt, true, 0, {}, Quick());
    var s2 := CloseOut(v.state, true, apt, (1, A), false);
    assert Finish(s, apt, (1, A), false, {}, Quick()) == Go(s2);
    assert [apt][1..] == [] && Sweep(s2, [], [(1, A)][1..], false, {}, Quick()) == Go(s2);
  }

  lemma TimedOut(s: State)
    requires Shows(s, 2, 100, 100, map[B := 100], 100) && Awaits(s)
    requires forall t :: t in s.settled ==> s.settled[t].expire == 0
    ensures Enabled(s, TICK2, Quick()) && Apply(s, TICK2, Quick()).accounts == map[1 := Account(0, 100, true)]
  {
    var s0 := Cleanup(s, Quick());
    LateSweep(s0);
    NothingSwept(Timeouts(s0, [(1, A)], false, {}, Quick()).state, true, Quick());
    Scanned(s);
  }

  lemma LateSweep(s: State)
    requires Shows(s, 2, 100, 100, map[B := 100], 100) && Awaits(s)
    ensures var f := Timeouts(s, [(1, A)], false, {}, Quick());
            f.Go? && f.state.accounts == map[1 := Account(0, 100, true)] && f.state.height == 2
  {
    Collected(s.second.pending, PendingOf(Task(), 1));
    SweptLate(s, PendingOf(Task(), 1));
  }

  lemma Scanned(s: State)
    requires s.height == 2 && Awaits(s) && s.third == Tier(map[], {})
    ensures IsScan([(1, A)], s.second.index, 1) && IsScan([], s.third.index, 1)
  {
  }

  lemma Collected(pending: map<TaskId, Pending>, apt: Pending)
    requires pending == map[A := apt]
    ensures Collect(pending, [(1, A)]) == [apt]
  {
    var keys: seq<TimeoutKey> := [(1, A)];
    assert keys[1..] == [];
  }

  lemma Waited(s: State)
    requires Shows(s, 1, 100, 100, map[B := 100], 100) && Awaits(s)
    requires forall t :: t in s.settled ==> s.settled[t].expire == 0
    ensures var s2 := Apply(s, TICK1, Quick());
            && Enabled(s, TICK1, Quick()) && Shows(s2, 2, 100, 100, map[B := 100], 100) && Awaits(s2)
            && forall t :: t in s2.settled ==> s2.settled[t].expire == 0
  {
  }

  function Opening(): seq<Step> { [DEPOSIT] + ([RESERVE] + ([Settle()] + [JUDGE])) }

  function Ending(): seq<Step> { [WITHDRAW] + ([TICK1] + [TICK2]) }

  lemma Opened(g: State)
    requires g == Genesis(Bank(0, map[1 := 200]))
    ensures var s := Run(g, Opening(), Quick());
            && IsRun(g, Opening(), Quick()) && Shows(s, 1, 200, 100, map[B := 100], 200) && Awaits(s)
            && forall t :: t in s.settled ==> s.settled[t].expire == 0
  {
    var p := Quick();
    var s1 := Apply(g, DEPOSIT, p);
    assert Shows(s1, 1, 200, 0, map[], 200) && s1.second == Tier(map[], {}) && s1.audits == map[];
    var s2 := Apply(s1, RESERVE, p);
    Reserved(s1);
    var s3 := Apply(s2, Settle(), p);
    Audited(s2);
    Judged(s3);
    RunOne(s3, JUDGE, p);
    RunCons(s2, Settle(), [JUDGE], p);
    RunCons(s1, RESERVE, [Settle()] + [JUDGE], p);
    RunCons(g, DEPOSIT, [RESERVE] + ([Settle()] + [JUDGE]), p);
  }

  lemma Ended(s: State)
    requires Shows(s, 1, 200, 100, map[B := 100], 200) && Awaits(s)
    requires forall t :: t in s.settled ==> s.settled[t].expire == 0
    ensures IsRun(s, Ending(), Quick()) && Run(s, Ending(), Quick()).accounts == map[1 := Account(0, 100, true)]
  {
    var p := Quick();
    var s1 := Apply(s, WITHDRAW, p);
    assert Shows(s1, 1, 100, 100, map[B := 100], 100) && Awaits(s1) && s1.settled == s.settled;
    var s2 := Apply(s1, TICK1, p);
    Waited(s1);
    TimedOut(s2);
    RunOne(s2, TICK2, p);
    RunCons(s1, TICK1, [TICK2], p);
    RunCons(s, WITHDRAW, [TICK1] + [TICK2], p);
  }

  /** Concretely: with two reservations of 100 on a balance of 200, the audit of A is judged but the
      bank refuses its worker, the user withdraws the 100 thus released, and the timeout then pays A
      out of the 100 frozen for B: the frozen balance exceeds the balance. */
  lemma UnderwritingCanFail(bank: Bank)
    requires bank == Bank(0, map[1 := 200])
    ensures IsRun(Genesis(bank), Opening() + Ending(), Quick())
    ensures Run(Genesis(bank), Opening() + Ending(), Quick()).accounts == map[1 := Account(0, 100, true)]
  {
    Opened(Genesis(bank));
    Ended(Run(Genesis(bank), Opening(), Quick()));
    RunAppend(Genesis(bank), Opening(), Ending(), Quick());
  }
}
