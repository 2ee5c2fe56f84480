/** What an unsafe expiry does to audits. The record of a task can be cleaned up while the task can still be
    batched, and even while its audit is pending; what was promised about its verifiers, its timeout key and a
    record of fraud then fails, and only then (x/settlement/keeper/keeper.go:239-254, 928-960, 1891-1905,
    2463-2492). */
module Reopened {
  import opened FeeSplit
  import opened Ledger
  import opened Effects
  import opened Runs
  import opened Audits
  import opened Expiry
  import Charges
  import Fraud

  // ---------- Sending to audit ----------

  /** The plain entry, checked by these verifiers. */
  function Sent(t: TaskId, expire: int, vs: seq<VerifierResult>): Entry { Plain(t, expire).(verifiers := vs) }

  function Send(t: TaskId, expire: int, vs: seq<VerifierResult>): Step {
    SettleStep(true, [EntryInput(Sent(t, expire, vs), true, {})])
  }

  lemma SendOpens(s: State, t: TaskId, expire: int, vs: seq<VerifierResult>, p: Params)
    requires USER in s.accounts && t !in s.settled && t !in s.fraud && !Expired(expire, s.height)
    ensures Apply(s, Send(t, expire, vs), p) == OpenAudit(s, Sent(t, expire, vs))
  {
    var e := Sent(t, expire, vs);
    assert SignaturesPresent(e) && !IsPerToken(e);
    OneRow(s, EntryInput(e, true, {}), OpenAudit(s, e), p);
  }

  /** The task was sent to audit in this block, for the first time. */
  ghost predicate Opened(s: State, t: TaskId, expire: int) {
    && Simple(s, 2) && s.second == Tier(map[t := PendingOf(Plain(t, expire), s.height)], {(s.height, t)})
    && s.third == Tier(map[], {}) && s.audits == map[]
    && t in s.settled && s.settled[t].expire == expire && s.settled[t].settledAt == s.height
    && t in s.hist.firstAt && s.hist.firstAt[t] == s.height
  }

  const FUNDS := Bank(0, map[USER := 2])

  /** Fund the user, wait until block `at`, and send the task to audit. */
  function Opening(t: TaskId, expire: int, at: nat): seq<Step>
    requires at >= 1
  {
    [DepositStep(USER, Coin(Ufai, 2), false)] + (Ticks(at - 1) + [Send(t, expire, [])])
  }

  lemma OpeningOpens(t: TaskId, expire: int, at: nat, p: Params)
    requires at >= 1 && !Expired(expire, at)
    ensures var s := Run(Genesis(FUNDS), Opening(t, expire, at), p);
            IsRun(Genesis(FUNDS), Opening(t, expire, at), p) && s.height == at && Opened(s, t, expire)
  {
    var g, d := Genesis(FUNDS), [DepositStep(USER, Coin(Ufai, 2), false)];
    FundedStart(p);
    var s := Run(g, d, p);
    TicksEffect(s, at - 1, p);
    var s1 := Run(s, Ticks(at - 1), p);
    SendOpens(s1, t, expire, [], p);
    RunOne(s1, Send(t, expire, []), p);
    RunAppend(s, Ticks(at - 1), [Send(t, expire, [])], p);
    RunAppend(g, d, Ticks(at - 1) + [Send(t, expire, [])], p);
  }

  /** The record of an unsafe task is gone while it can still be batched. */
  lemma Forgotten(s: State, t: TaskId, expire: int, at: nat, p: Params)
    requires t in s.settled && s.settled[t].expire == expire && s.settled[t].settledAt == at == s.height
    requires at >= 1 && !SafeExpiry(expire, at, p) && NothingDue(s, at + p.cleanupBuffer + 1, p)
    ensures var s2 := Run(s, Ticks(p.cleanupBuffer + 2), p);
            && IsRun(s, Ticks(p.cleanupBuffer + 2), p) && t !in s2.settled && !Expired(expire, s2.height)
            && s2 == s.(height := at + p.cleanupBuffer + 2, settled := s2.settled)
  {
    TicksEffect(s, p.cleanupBuffer + 2, p);
  }

  // ---------- An audit that overturns ----------

  /** The votes against the task, by second verifiers `k` to `n`. */
  function Vote(t: TaskId, i: nat): Step { AuditStep([AuditInput(t, Bech32(i), false, 0, 0, true, false, {})]) }

  function Votes(t: TaskId, k: nat, n: nat): seq<Step>
    decreases n - k
  {
    if k >= n then [] else [Vote(t, k)] + Votes(t, k + 1, n)
  }

  function Against(k: nat, height: int): AuditRecord {
    AuditRecord(seq(k, i requires 0 <= i < k => Bech32(i)), seq(k, _ => false), seq(k, _ => 0), seq(k, _ => 0), height)
  }

  /** The first `k` have voted against a task that passed and awaits its audit. */
  ghost predicate Polled(s: State, t: TaskId, k: nat) {
    && t in s.second.pending && !Expired(s.second.pending[t].expire, s.height)
    && s.second.pending[t].task == t && s.second.pending[t].verifiers == [] && !s.second.pending[t].third
    && s.second.pending[t].status == SUCCESS
    && if k == 0 then t !in s.audits else t in s.audits && s.audits[t] == Against(k, s.height)
  }

  function Counted(s: State, t: TaskId, k: nat): State { s.(audits := s.audits[t := Against(k, s.height)]) }

  /** All voted against it. */
  function Outvoted(s: State, t: TaskId, p: Params): State
    requires t in s.second.pending
  {
    Overturn(CountJudgment(Counted(s, t, p.secondVerifiers), t), s.second.pending[t])
  }

  lemma NextVote(s: State, t: TaskId, k: nat, p: Params)
    requires Polled(s, t, k) && k < p.secondVerifiers
    ensures var m := AuditInput(t, Bech32(k), false, 0, 0, true, false, {});
            !AuditRejected(s, m, p) && Extended(s, m) == Against(k + 1, s.height)
  {
  }

  lemma {:induction false} NonePass(k: nat)
    ensures CountPass(seq(k, _ => false)) == 0
  {
    if k > 0 {
      assert seq(k, _ => false)[1..] == seq(k - 1, _ => false);
      NonePass(k - 1);
    }
  }

  lemma OneVote(s: State, t: TaskId, k: nat, p: Params)
    requires Polled(s, t, k) && k < p.secondVerifiers
    ensures Apply(s, Vote(t, k), p) == if k + 1 == p.secondVerifiers then Outvoted(s, t, p) else Counted(s, t, k + 1)
  {
    var m := AuditInput(t, Bech32(k), false, 0, 0, true, false, {});
    NextVote(s, t, k, p);
    NonePass(k + 1);
    var s2 := if k + 1 == p.secondVerifiers then Outvoted(s, t, p) else Counted(s, t, k + 1);
    assert AuditResult(s, m, p) == Go(s2);
    assert [m][1..] == [] && AuditAll(s2, [], p) == Go(s2);
  }

  lemma PolledNext(s: State, t: TaskId, k: nat, p: Params)
    requires Polled(s, t, k)
    ensures Polled(Counted(s, t, k + 1), t, k + 1)
    ensures Outvoted(Counted(s, t, k + 1), t, p) == Outvoted(s, t, p)
  {
    assert Counted(Counted(s, t, k + 1), t, p.secondVerifiers) == Counted(s, t, p.secondVerifiers);
  }

  lemma {:induction false} VotesOverturn(s: State, t: TaskId, k: nat, p: Params)
    requires Polled(s, t, k) && k < p.secondVerifiers
    ensures Run(s, Votes(t, k, p.secondVerifiers), p) == Outvoted(s, t, p)
    ensures IsRun(s, Votes(t, k, p.secondVerifiers), p)
    decreases p.secondVerifiers - k
  {
    var n := p.secondVerifiers;
    OneVote(s, t, k, p);
    RunCons(s, Vote(t, k), Votes(t, k + 1, n), p);
    if k + 1 == n {
      assert Votes(t, n, n) == [];
    } else {
      PolledNext(s, t, k, p);
      VotesOverturn(Counted(s, t, k + 1), t, k + 1, p);
    }
  }

  // ---------- Runs that keep the expiry fixed ----------

  ghost predicate AllFixed(steps: seq<Step>, t: TaskId, expire: int) {
    forall i :: 0 <= i < |steps| ==> Charges.Fixed(steps[i], t, expire)
  }

  lemma FixedAppend(a: seq<Step>, b: seq<Step>, t: TaskId, expire: int)
    requires AllFixed(a, t, expire) && AllFixed(b, t, expire)
    ensures AllFixed(a + b, t, expire)
  {
  }

  lemma TicksFixed(n: nat, t: TaskId, expire: int)
    ensures AllFixed(Ticks(n), t, expire)
  {
  }

  lemma {:induction false} VotesFixed(u: TaskId, k: nat, n: nat, t: TaskId, expire: int)
    ensures AllFixed(Votes(u, k, n), t, expire)
    decreases n - k
  {
    if k < n { VotesFixed(u, k + 1, n, t, expire); }
  }

  lemma OpeningFixed(t: TaskId, expire: int, at: nat)
    requires at >= 1
    ensures AllFixed(Opening(t, expire, at), t, expire)
  {
    TicksFixed(at - 1, t, expire);
    FixedAppend(Ticks(at - 1), [Send(t, expire, [])], t, expire);
  }

  // ---------- A record of fraud that does not stay ----------

  function Prove(t: TaskId): Step { FraudStep(FraudMsg(Bech32(USER), t, Bech32(WORKER), true, {})) }

  lemma ProofConvicts(s: State, t: TaskId, expire: int, p: Params)
    requires t in s.settled && t !in s.fraud
    requires s.settled[t] == Settled(TaskSettled, expire, s.height, Bech32(WORKER), [], 1, Bech32(USER))
    ensures var s2 := Apply(s, Prove(t), p);
            && t in s2.settled && s2.settled[t].status == TaskFraud
            && s2.height == s.height && s2.second == s.second && s2.audits == s.audits
  {
    var m := Prove(t).proof;
    FraudEffect(s, m, p);
    assert !FraudRejected(s, m, p);
    var r := s.settled[t];
    ClawbackEffect(s.(fraud := s.fraud + {t}, settled := s.settled[t := r.(status := TaskFraud)],
                      hist := s.hist.(defrauded := s.hist.defrauded + {t})), m, r, p);
  }

  /** Wait until the record is gone, settle the task without an audit, and prove fraud. */
  function Exposure(t: TaskId, expire: int, p: Params): seq<Step> {
    Ticks(p.cleanupBuffer + 2) + ([Batch(t, expire)] + [Prove(t)])
  }

  lemma Exposed(s: State, t: TaskId, expire: int, at: nat, p: Params)
    requires Opened(s, t, expire) && s.height == at >= 1 && !SafeExpiry(expire, at, p)
    requires p.secondTimeout > p.cleanupBuffer + 1
    ensures var s2 := Run(s, Exposure(t, expire, p), p);
            && IsRun(s, Exposure(t, expire, p), p) && t in s2.settled && s2.settled[t].status == TaskFraud
            && s2.second == s.second && s2.audits == map[] && !Expired(expire, s2.height)
  {
    var s1 := Run(s, Ticks(p.cleanupBuffer + 2), p);
    Forgotten(s, t, expire, at, p);
    BatchCharges(s1, t, expire, 0, p);
    var s2 := Apply(s1, Batch(t, expire), p);
    ProofConvicts(s2, t, expire, p);
    RunOne(s2, Prove(t), p);
    RunCons(s1, Batch(t, expire), [Prove(t)], p);
    RunAppend(s, Ticks(p.cleanupBuffer + 2), [Batch(t, expire)] + [Prove(t)], p);
  }

  /** A run in which a record of fraud becomes another one, although the expiry is the same in every batch. */
  ghost predicate Rewritten(bank: Bank, before: seq<Step>, after: seq<Step>, expire: int, at: int, p: Params,
                            t: TaskId)
  {
    var s := Run(Genesis(bank), before, p);
    var s2 := Run(s, after, p);
    && Fraud.FoundOut(bank, before, p, t) && IsRun(s, after, p) && AllFixed(before, t, expire)
    && t in s.hist.firstAt && s.hist.firstAt[t] == at
    && t in s2.settled && s2.settled[t].status != TaskFraud
  }

  /** Sent to audit at block `at`, forgotten, settled, found out, and then overturned by the audit as if nothing
      had been found. */
  lemma RewriteRun(t: TaskId, expire: int, at: nat, p: Params)
    requires at >= 1 && !SafeExpiry(expire, at, p) && p.secondTimeout > p.cleanupBuffer + 1
    ensures Rewritten(FUNDS, Opening(t, expire, at) + Exposure(t, expire, p), Votes(t, 0, p.secondVerifiers),
                      expire, at, p, t)
  {
    var g, a, b := Genesis(FUNDS), Opening(t, expire, at), Exposure(t, expire, p);
    OpeningOpens(t, expire, at, p);
    var s := Run(g, a, p);
    Exposed(s, t, expire, at, p);
    RunAppend(g, a, b, p);
    RunAdvances(s, b, p);
    VotesOverturn(Run(s, b, p), t, 0, p);
    OpeningFixed(t, expire, at);
    ExposureFixed(t, expire, p);
    FixedAppend(a, b, t, expire);
  }

  lemma ExposureFixed(t: TaskId, expire: int, p: Params)
    ensures AllFixed(Exposure(t, expire, p), t, expire)
  {
    TicksFixed(p.cleanupBuffer + 2, t, expire);
    FixedAppend(Ticks(p.cleanupBuffer + 2), [Batch(t, expire)] + [Prove(t)], t, expire);
  }

  /** A record of fraud can be rewritten exactly when the expiry is not safe and an audit may outlast the record
      made with it. (A proof of fraud always names its task.) */
  lemma FraudRecordExact(t: TaskId, expire: int, at: nat, p: Params)
    requires at >= 1 && t != []
    ensures (exists bank, before, after :: Rewritten(bank, before, after, expire, at, p, t)) <==>
            !SafeExpiry(expire, at, p) && p.secondTimeout > p.cleanupBuffer + 1
  {
    if !SafeExpiry(expire, at, p) && p.secondTimeout > p.cleanupBuffer + 1 {
      RewriteRun(t, expire, at, p);
    } else {
      forall bank, before, after ensures !Rewritten(bank, before, after, expire, at, p, t) {
        if Rewritten(bank, before, after, expire, at, p, t) {
          if SafeExpiry(expire, at, p) { Fraud.FraudRecordStays(bank, before, after, p, t, expire); }
          else { Fraud.FraudRecordStaysInTime(bank, before, after, p, t); }
        }
      }
    }
  }

  // ---------- An original verifier among the second verifiers ----------

  /** A run that ends with one, although the expiry is the same in every batch. */
  ghost predicate SelfAudited(bank: Bank, steps: seq<Step>, expire: int, at: int, p: Params, t: TaskId) {
    var s := Run(Genesis(bank), steps, p);
    && IsRun(Genesis(bank), steps, p) && AllFixed(steps, t, expire)
    && t in s.hist.firstAt && s.hist.firstAt[t] == at
    && t in s.audits && t in s.hist.originals
    && exists v :: v in s.audits[t].verifiers && v in s.hist.originals[t]
  }

  const FIRST := VerifierResult(Bech32(0), true, 0, 0)

  /** Overturned in the block it was sent, forgotten, and sent again by one of the second verifiers. */
  function Return(t: TaskId, expire: int, p: Params): seq<Step> {
    Votes(t, 0, p.secondVerifiers) + (Ticks(p.cleanupBuffer + 2) + [Send(t, expire, [FIRST])])
  }

  lemma Returned(s: State, t: TaskId, expire: int, at: nat, p: Params)
    requires Opened(s, t, expire) && s.height == at >= 1 && !SafeExpiry(expire, at, p)
    ensures var s2 := Run(s, Return(t, expire, p), p);
            && IsRun(s, Return(t, expire, p), p)
            && t in s2.audits && Bech32(0) in s2.audits[t].verifiers
            && t in s2.hist.originals && Bech32(0) in s2.hist.originals[t]
  {
    assert Against(p.secondVerifiers, at).verifiers[0] == Bech32(0);
    VotesOverturn(s, t, 0, p);
    OutvotedState(s, t, expire, p);
    SentAgain(Outvoted(s, t, p), t, expire, at, p);
    RunAppend(s, Votes(t, 0, p.secondVerifiers), Ticks(p.cleanupBuffer + 2) + [Send(t, expire, [FIRST])], p);
  }

  lemma OutvotedState(s: State, t: TaskId, expire: int, p: Params)
    requires Opened(s, t, expire)
    ensures var s1 := Outvoted(s, t, p);
            && Simple(s1, 2) && NoAudits(s1) && s1.height == s.height
            && s1.audits == map[t := Against(p.secondVerifiers, s.height)]
            && t in s1.settled && s1.settled[t].expire == expire && s1.settled[t].settledAt == s.height
  {
  }

  lemma SentAgain(s: State, t: TaskId, expire: int, at: nat, p: Params)
    requires Simple(s, 2) && NoAudits(s) && s.height == at >= 1 && !SafeExpiry(expire, at, p)
    requires t in s.settled && s.settled[t].expire == expire && s.settled[t].settledAt == at
    ensures var steps := Ticks(p.cleanupBuffer + 2) + [Send(t, expire, [FIRST])];
            var s2 := Run(s, steps, p);
            && IsRun(s, steps, p) && s2.audits == s.audits
            && t in s2.hist.originals && s2.hist.originals[t] == [Bech32(0)]
  {
    Forgotten(s, t, expire, at, p);
    var s2 := Run(s, Ticks(p.cleanupBuffer + 2), p);
    SendOpens(s2, t, expire, [FIRST], p);
    assert Addresses([FIRST]) == [Bech32(0)];
    RunOne(s2, Send(t, expire, [FIRST]), p);
    RunAppend(s, Ticks(p.cleanupBuffer + 2), [Send(t, expire, [FIRST])], p);
  }

  lemma ReturnRun(t: TaskId, expire: int, at: nat, p: Params)
    requires at >= 1 && !SafeExpiry(expire, at, p)
    ensures SelfAudited(FUNDS, Opening(t, expire, at) + Return(t, expire, p), expire, at, p, t)
  {
    var g, a, b := Genesis(FUNDS), Opening(t, expire, at), Return(t, expire, p);
    OpeningOpens(t, expire, at, p);
    var s := Run(g, a, p);
    Returned(s, t, expire, at, p);
    RunAppend(g, a, b, p);
    RunAdvances(s, b, p);
    OpeningFixed(t, expire, at);
    ReturnFixed(t, expire, p);
    FixedAppend(a, b, t, expire);
  }

  lemma ReturnFixed(t: TaskId, expire: int, p: Params)
    ensures AllFixed(Return(t, expire, p), t, expire)
  {
    VotesFixed(t, 0, p.secondVerifiers, t, expire);
    TicksFixed(p.cleanupBuffer + 2, t, expire);
    FixedAppend(Ticks(p.cleanupBuffer + 2), [Send(t, expire, [FIRST])], t, expire);
    FixedAppend(Votes(t, 0, p.secondVerifiers), Ticks(p.cleanupBuffer + 2) + [Send(t, expire, [FIRST])], t, expire);
  }

  /** A task first recorded at block `at` can have an original verifier among its second verifiers exactly when
      its expiry is not safe. */
  lemma OriginalsExact(t: TaskId, expire: int, at: nat, p: Params)
    requires at >= 1
    ensures (exists bank, steps :: SelfAudited(bank, steps, expire, at, p, t)) <==> !SafeExpiry(expire, at, p)
  {
    if !SafeExpiry(expire, at, p) {
      ReturnRun(t, expire, at, p);
    } else {
      forall bank, steps ensures !SelfAudited(bank, steps, expire, at, p, t) {
        if SelfAudited(bank, steps, expire, at, p, t) { Charges.NoOriginalVerifier(bank, steps, p, t, expire); }
      }
    }
  }

  // ---------- A key left behind ----------

  /** Sent to audit twice: the second entry replaces the first, whose key stays. */
  lemma KeyLeftBehind(t: TaskId, expire: int, at: nat, p: Params)
    requires at >= 1 && !SafeExpiry(expire, at, p) && p.secondTimeout > p.cleanupBuffer + 1
    ensures var steps := Opening(t, expire, at) + (Ticks(p.cleanupBuffer + 2) + [Send(t, expire, [])]);
            var s := Run(Genesis(FUNDS), steps, p);
            && IsRun(Genesis(FUNDS), steps, p) && t in s.second.pending
            && s.second.pending[t].submittedAt == at + p.cleanupBuffer + 2 && (at, t) in s.second.index
  {
    var g, a := Genesis(FUNDS), Opening(t, expire, at);
    var b := Ticks(p.cleanupBuffer + 2);
    OpeningOpens(t, expire, at, p);
    var s := Run(g, a, p);
    Forgotten(s, t, expire, at, p);
    var s1 := Run(s, b, p);
    SendOpens(s1, t, expire, [], p);
    RunOne(s1, Send(t, expire, []), p);
    RunAppend(s, b, [Send(t, expire, [])], p);
    RunAppend(g, a, b + [Send(t, expire, [])], p);
  }
}
