/** What a task is promised whose own expire_block is fixed and safe, whatever other tasks do: it is debited at
    most once, its record says what was paid, its original verifiers do not audit it, and its audit lasts
    as long as the timeout says (x/settlement/keeper/keeper.go:849-1093, 1686-1931, 2027-2203, 2348-2492). */
module Charges {
  import opened Sums
  import opened FeeSplit
  import opened Ledger
  import opened Effects
  import opened Runs
  import Audits

  // ---------- The invariant of one task ----------

  /** Nobody was charged and no worker paid for the task. */
  ghost predicate Unpaid(s: State, t: TaskId) {
    Get(s.hist.charges, t) == 0 && Get(s.hist.workerPaid, t) == 0
  }

  /** A record says what was paid: nothing while pending or failed, no worker for a charged failure, one
      debit for a success, even one that later turned out to be fraud. */
  ghost predicate Truthful(s: State, t: TaskId) {
    t in s.settled ==>
      match s.settled[t].status
      case TaskPendingSecondVerification => Unpaid(s, t)
      case TaskFailed => Unpaid(s, t)
      case TaskFailSettled => Get(s.hist.workerPaid, t) == 0
      case _ => Get(s.hist.charges, t) == 1
  }

  /** Pending entries are filed under their own task, in the tier they are flagged for. */
  ghost predicate Shaped(s: State) {
    && (forall u :: u in s.second.pending ==> s.second.pending[u].task == u && !s.second.pending[u].third)
    && (forall u :: u in s.third.pending ==> s.third.pending[u].task == u && s.third.pending[u].third)
  }

  /** A pending task is recorded and unpaid, and listed under one height only. */
  ghost predicate WaitsUnpaid(s: State, tier: Tier, t: TaskId, expire: int) {
    && (t in tier.pending ==> tier.pending[t].expire == expire && t in s.hist.firstAt && Unpaid(s, t))
    && (forall h :: (h, t) in tier.index ==>
          t in s.hist.firstAt && (t in tier.pending ==> h == tier.pending[t].submittedAt))
  }

  /** No second verifier is among those the task came with. */
  ghost predicate Excluded(s: State, t: TaskId) {
    && (t in s.hist.originals ==> t in s.hist.firstAt)
    && (t in s.second.pending ==> t in s.hist.originals && s.hist.originals[t] == s.second.pending[t].verifiers)
    && (t in s.audits ==>
          t in s.hist.originals && forall v :: v in s.audits[t].verifiers ==> v !in s.hist.originals[t])
  }

  /** Once recorded, the task cannot enter a batch at height `limit` or later: its record is there or it
      has expired. */
  ghost predicate Once(s: State, t: TaskId, expire: int, limit: int) {
    && (t in s.hist.firstAt ==> s.hist.firstAt[t] <= s.height && (t in s.settled || 0 < expire < limit))
    && (t in s.settled ==>
          t in s.hist.firstAt && s.settled[t].expire == expire && s.hist.firstAt[t] <= s.settled[t].settledAt)
    && WaitsUnpaid(s, s.second, t, expire) && WaitsUnpaid(s, s.third, t, expire)
    && (t in s.second.pending ==> t !in s.third.pending && forall h :: (h, t) !in s.third.index)
    && (t !in s.hist.firstAt ==> Unpaid(s, t))
    && Get(s.hist.charges, t) <= 1 && Truthful(s, t) && Excluded(s, t) && t !in s.hist.reopened
  }

  ghost predicate Inv(s: State, t: TaskId, expire: int, limit: int) { Shaped(s) && Once(s, t, expire, limit) }

  // ---------- What leaves the task alone ----------

  /** Same entry of the task, if any, and no new key. */
  ghost predicate SameWait(a: Tier, b: Tier, t: TaskId) {
    && (t in a.pending <==> t in b.pending) && (t in a.pending ==> b.pending[t] == a.pending[t])
    && forall h :: (h, t) in b.index ==> (h, t) in a.index
  }

  ghost predicate Calm(s: State, s2: State, t: TaskId) {
    && s2.height == s.height
    && (t in s.settled <==> t in s2.settled) && (t in s.settled ==> s2.settled[t] == s.settled[t])
    && (t in s.hist.firstAt <==> t in s2.hist.firstAt)
    && (t in s.hist.firstAt ==> s2.hist.firstAt[t] == s.hist.firstAt[t])
    && Get(s2.hist.charges, t) == Get(s.hist.charges, t) && Get(s2.hist.workerPaid, t) == Get(s.hist.workerPaid, t)
    && SameWait(s.second, s2.second, t) && SameWait(s.third, s2.third, t)
    && (t in s.hist.reopened <==> t in s2.hist.reopened)
    && (t in s.audits <==> t in s2.audits) && (t in s.audits ==> s2.audits[t] == s.audits[t])
    && (t in s.hist.originals <==> t in s2.hist.originals)
    && (t in s.hist.originals ==> s2.hist.originals[t] == s.hist.originals[t])
  }

  lemma CalmOnce(s: State, s2: State, t: TaskId, expire: int, limit: int)
    requires Once(s, t, expire, limit) && Calm(s, s2, t)
    ensures Once(s2, t, expire, limit)
  {
  }

  // ---------- Settling ----------

  /** The task waits for nothing, and any settlement of it would be its first. */
  ghost predicate Free(s: State, t: TaskId) {
    t !in s.second.pending && t !in s.third.pending && Unpaid(s, t)
  }

  lemma SettlesOnce(s: State, s2: State, j: Job, n: nat, t: TaskId, expire: int, limit: int)
    requires Once(s, t, expire, limit) && Settles(s, s2, j, n)
    requires j.task == t ==> Free(s, t) && j.expire == expire
    ensures Once(s2, t, expire, limit)
  {
    if j.task != t { CalmOnce(s, s2, t, expire, limit); }
  }

  lemma RecordOnce(s: State, j: Job, t: TaskId, expire: int, limit: int)
    requires Once(s, t, expire, limit) && (j.task == t ==> Unpaid(s, t) && j.expire == expire)
    ensures Once(Record(s, j, TaskFailed, 0), t, expire, limit)
  {
    if j.task != t { CalmOnce(s, Record(s, j, TaskFailed, 0), t, expire, limit); }
  }

  /** The tiers replaced; no settlement looks at them. */
  function Retiered(s: State, second: Tier, third: Tier): State { s.(second := second, third := third) }

  lemma RetieredEffect(s: State, s2: State, j: Job, n: nat, second: Tier, third: Tier)
    ensures Quiet(s, s2) ==> Quiet(Retiered(s, second, third), Retiered(s2, second, third))
    ensures Settles(s, s2, j, n) ==> Settles(Retiered(s, second, third), Retiered(s2, second, third), j, n)
  {
    if Beside(s, s2) { assert Beside(Retiered(s, second, third), Retiered(s2, second, third)); }
  }

  /** Taking an entry out of a tier, whatever keys go with it. */
  lemma DroppedOnce(s: State, s2: State, third: bool, u: TaskId, t: TaskId, expire: int, limit: int)
    requires Inv(s, t, expire, limit) && s2 == WithTier(s, third, TierOf(s2, third))
    requires TierOf(s2, third).pending == TierOf(s, third).pending - {u}
    requires TierOf(s2, third).index <= TierOf(s, third).index
    ensures Inv(s2, t, expire, limit)
  {
  }

  /** What an audited settlement can do, by its result. */
  ghost predicate Audited(s: State, s1: State, apt: Pending, settled: bool) {
    if settled && apt.task !in s.fraud then Settles(s, s1, AuditJob(apt), 1) else Quiet(s, s1)
  }

  /** Seen from a state in which its entry is already gone. */
  lemma AuditedOnce(s: State, s1: State, settled: bool, s0: State, apt: Pending, t: TaskId, expire: int, limit: int)
    requires Audited(s, s1, apt, settled)
    requires s0 == Retiered(s, s0.second, s0.third) && Inv(s0, t, expire, limit)
    requires apt.task == t ==> Free(s0, t) && apt.expire == expire
    ensures Inv(Retiered(s1, s0.second, s0.third), t, expire, limit)
    ensures apt.task == t && !settled ==> Unpaid(s1, t)
  {
    var s2, j := Retiered(s1, s0.second, s0.third), AuditJob(apt);
    RetieredEffect(s, s1, j, 1, s0.second, s0.third);
    if settled && apt.task !in s.fraud {
      SettlesOnce(s0, s2, j, 1, t, expire, limit);
    } else {
      CalmOnce(s0, s2, t, expire, limit);
    }
  }

  // ---------- Batch rows ----------

  lemma OpenAuditOnce(s: State, e: Entry, t: TaskId, expire: int, limit: int)
    requires Inv(s, t, expire, limit) && (e.task == t ==> t !in s.hist.firstAt && e.expire == expire)
    ensures Inv(OpenAudit(s, e), t, expire, limit)
  {
    if e.task != t { CalmOnce(s, OpenAudit(s, e), t, expire, limit); }
  }

  lemma RowOnce(s: State, x: EntryInput, p: Params, t: TaskId, expire: int)
    requires Inv(s, t, expire, s.height) && SettleEntry(s, x, p).Go? && (x.entry.task == t ==> x.entry.expire == expire)
    ensures var s2 := SettleEntry(s, x, p).state; Inv(s2, t, expire, s.height) && s2.height == s.height
  {
    var s2, j := SettleEntry(s, x, p).state, JobOf(x.entry);
    if SettledNow(s, x, p) {
      SettleEntryEffect(s, x, p);
      if Quiet(s, s2) {
        CalmOnce(s, s2, t, expire, s.height);
      } else {
        SettlesOnce(s, s2, j, if Settles(s, s2, j, 0) then 0 else 1, t, expire, s.height);
      }
    } else if !Skipped(s, x.entry) {
      OpenAuditOnce(s, x.entry, t, expire, s.height);
    }
  }

  lemma {:induction false} RowsOnce(s: State, xs: seq<EntryInput>, p: Params, t: TaskId, expire: int)
    requires Inv(s, t, expire, s.height) && SettleAll(s, xs, p).Go?
    requires forall i :: 0 <= i < |xs| && xs[i].entry.task == t ==> xs[i].entry.expire == expire
    ensures var s2 := SettleAll(s, xs, p).state; Inv(s2, t, expire, s.height) && s2.height == s.height
    decreases |xs|
  {
    if xs != [] {
      RowOnce(s, xs[0], p, t, expire);
      RowsOnce(SettleEntry(s, xs[0], p).state, xs[1..], p, t, expire);
    }
  }

  // ---------- Judgments ----------

  lemma EscalateOnce(s: State, apt: Pending, t: TaskId, expire: int, limit: int)
    requires Inv(s, t, expire, limit) && apt.task in s.second.pending && apt == s.second.pending[apt.task]
    ensures Inv(Escalate(s, apt), t, expire, limit)
  {
    if apt.task != t { CalmOnce(s, Escalate(s, apt), t, expire, limit); }
  }

  /** The ledger without the entry that is being judged. */
  function Without(s: State, u: TaskId): State { s.(second := Drop(s.second, u)) }

  lemma WithoutOnce(s: State, u: TaskId, t: TaskId, expire: int, limit: int)
    requires Inv(s, t, expire, limit) && u in s.second.pending
    ensures var s0 := Without(s, u);
            Inv(s0, t, expire, limit) && (u == t ==> Free(s0, t) && s.second.pending[u].expire == expire)
  {
    DroppedOnce(s, Without(s, u), false, u, t, expire, limit);
  }

  lemma OverturnOnce(s: State, apt: Pending, t: TaskId, expire: int, limit: int)
    requires Inv(s, t, expire, limit) && apt.task in s.second.pending && apt == s.second.pending[apt.task]
    ensures var s2 := Overturn(s, apt); Inv(s2, t, expire, limit) && (apt.task == t ==> Free(s2, t))
  {
    WithoutOnce(s, apt.task, t, expire, limit);
    RecordOnce(Without(s, apt.task), AuditJob(apt), t, expire, limit);
    assert Overturn(s, apt) == Record(Without(s, apt.task), AuditJob(apt), TaskFailed, 0);
  }

  lemma ReleaseOnce(s: State, s1: State, apt: Pending, t: TaskId, expire: int, limit: int)
    requires Inv(s, t, expire, limit)
    requires s1 == if apt.user.Bech32? then Unfreeze(s, apt.user.account, apt.task) else s
    ensures Inv(s1, t, expire, limit) && s1.second == s.second
  {
    if apt.user.Bech32? { ReleaseIsQuiet(s, apt.user.account, apt.task); }
    CalmOnce(s, s1, t, expire, limit);
  }

  lemma TokenFraudOnce(s: State, apt: Pending, ar: AuditRecord, refused: set<nat>, p: Params, t: TaskId, expire: int,
                       limit: int)
    requires Inv(s, t, expire, limit) && apt.task in s.second.pending && apt == s.second.pending[apt.task]
    requires SettleTokenFraud(s, apt, ar, refused, p).Go?
    ensures Inv(SettleTokenFraud(s, apt, ar, refused, p).state, t, expire, limit)
  {
    var s1 := if apt.user.Bech32? then Unfreeze(s, apt.user.account, apt.task) else s;
    ReleaseOnce(s, s1, apt, t, expire, limit);
    OverturnOnce(s1, apt, t, expire, limit);
    var s3 := Overturn(s1, apt);
    var v := SettleAudited(s3, apt, false, Tokens.Median(ar.outTokens), refused, p);
    SettleAuditedEffect(s3, apt, false, Tokens.Median(ar.outTokens), refused, p);
    FreeOnce(s3, v.state, v.settled, apt, t, expire, limit);
  }

  /** Settling a task that waits for nothing. */
  lemma FreeOnce(s: State, s1: State, settled: bool, apt: Pending, t: TaskId, expire: int, limit: int)
    requires Inv(s, t, expire, limit) && Audited(s, s1, apt, settled)
    requires apt.task == t ==> Free(s, t) && apt.expire == expire
    ensures Inv(s1, t, expire, limit)
  {
    AuditedOnce(s, s1, settled, s, apt, t, expire, limit);
    assert Retiered(s1, s.second, s.third) == s1;
  }

  /** Settling a waiting task, and dropping its entry if that went through. */
  lemma WaitingOnce(s: State, s1: State, settled: bool, s2: State, apt: Pending, t: TaskId, expire: int, limit: int)
    requires Inv(s, t, expire, limit) && apt.task in s.second.pending && apt == s.second.pending[apt.task]
    requires Audited(s, s1, apt, settled) && s2 == if settled then Without(s1, apt.task) else s1
    ensures Inv(s2, t, expire, limit)
  {
    if settled {
      WithoutOnce(s, apt.task, t, expire, limit);
      AuditedOnce(s, s1, settled, Without(s, apt.task), apt, t, expire, limit);
      assert s2 == Retiered(s1, Drop(s.second, apt.task), s.third);
    } else {
      CalmOnce(s, s2, t, expire, limit);
    }
  }

  lemma SettleByAuditOnce(s: State, apt: Pending, ar: AuditRecord, refused: set<nat>, p: Params, t: TaskId, expire: int,
                          limit: int)
    requires Inv(s, t, expire, limit) && apt.task in s.second.pending && apt == s.second.pending[apt.task]
    requires SettleByAudit(s, apt, ar, refused, p).Go?
    ensures Inv(SettleByAudit(s, apt, ar, refused, p).state, t, expire, limit)
  {
    var asSuccess := AuditPass(ar, p) && (apt.status == SUCCESS || apt.status == FAIL);
    var v := SettleAudited(s, apt, asSuccess, 0, refused, p);
    SettleAuditedEffect(s, apt, asSuccess, 0, refused, p);
    WaitingOnce(s, v.state, v.settled, SettleByAudit(s, apt, ar, refused, p).state, apt, t, expire, limit);
  }

  lemma JudgeOnce(s0: State, apt: Pending, ar: AuditRecord, escalate: bool, refused: set<nat>, p: Params, t: TaskId,
                  expire: int, limit: int)
    requires Inv(s0, t, expire, limit) && apt.task in s0.second.pending && apt == s0.second.pending[apt.task]
    requires Judge(s0, apt, ar, escalate, refused, p).Go?
    ensures Inv(Judge(s0, apt, ar, escalate, refused, p).state, t, expire, limit)
  {
    var s := CountJudgment(s0, apt.task);
    CalmOnce(s0, s, t, expire, limit);
    if escalate {
      EscalateOnce(s, apt, t, expire, limit);
    } else if TokenFraud(apt, ar, p) {
      TokenFraudOnce(s, apt, ar, refused, p, t, expire, limit);
    } else if apt.status == SUCCESS && !AuditPass(ar, p) {
      OverturnOnce(s, apt, t, expire, limit);
    } else {
      SettleByAuditOnce(s, apt, ar, refused, p, t, expire, limit);
    }
  }

  lemma ExtendOnce(s: State, m: AuditInput, p: Params, t: TaskId, expire: int, limit: int)
    requires Inv(s, t, expire, limit) && !AuditRejected(s, m, p)
    ensures Inv(s.(audits := s.audits[m.task := Audits.Extended(s, m)]), t, expire, limit)
  {
    if m.task != t { CalmOnce(s, s.(audits := s.audits[m.task := Audits.Extended(s, m)]), t, expire, limit); }
  }

  lemma ResultOnce(s: State, m: AuditInput, p: Params, t: TaskId, expire: int, limit: int)
    requires Inv(s, t, expire, limit) && AuditResult(s, m, p).Go?
    ensures Inv(AuditResult(s, m, p).state, t, expire, limit)
  {
    if !AuditRejected(s, m, p) {
      var ar := Audits.Extended(s, m);
      var s1 := s.(audits := s.audits[m.task := ar]);
      ExtendOnce(s, m, p, t, expire, limit);
      if |ar.results| >= p.secondVerifiers {
        JudgeOnce(s1, s.second.pending[m.task], ar, m.escalate, m.refused, p, t, expire, limit);
      }
    }
  }

  lemma {:induction false} ResultsOnce(s: State, ms: seq<AuditInput>, p: Params, t: TaskId, expire: int, limit: int)
    requires Inv(s, t, expire, limit) && AuditAll(s, ms, p).Go?
    ensures Inv(AuditAll(s, ms, p).state, t, expire, limit)
    decreases |ms|
  {
    if ms != [] {
      ResultOnce(s, ms[0], p, t, expire, limit);
      ResultsOnce(AuditResult(s, ms[0], p).state, ms[1..], p, t, expire, limit);
    }
  }

  // ---------- Timeouts ----------

  /** The list holds the task's entry at most once, and as it is pending. */
  ghost predicate Single(apts: seq<Pending>, pending: map<TaskId, Pending>, t: TaskId) {
    && (forall i :: 0 <= i < |apts| && apts[i].task == t ==> t in pending && apts[i] == pending[t])
    && (forall i, j :: 0 <= i < j < |apts| && apts[i].task == t ==> apts[j].task != t)
  }

  lemma {:induction false} CollectSingle(tier: Tier, keys: seq<TimeoutKey>, t: TaskId)
    requires forall u :: u in tier.pending ==> tier.pending[u].task == u
    requires forall i :: 0 <= i < |keys| && keys[i].1 == t && t in tier.pending ==>
                         keys[i].0 == tier.pending[t].submittedAt
    requires forall i, j :: 0 <= i < j < |keys| ==> keys[i] != keys[j]
    ensures Single(Collect(tier.pending, keys), tier.pending, t)
    ensures (forall i :: 0 <= i < |keys| ==> keys[i].1 != t) ==>
              forall i :: 0 <= i < |Collect(tier.pending, keys)| ==> Collect(tier.pending, keys)[i].task != t
  {
    if keys != [] {
      CollectSingle(tier, keys[1..], t);
      assert forall i :: 0 <= i < |keys[1..]| ==> keys[1..][i] == keys[i + 1];
    }
  }

  lemma FinishOnce(s: State, apt: Pending, key: TimeoutKey, third: bool, refused: set<nat>, p: Params, t: TaskId,
                   expire: int, limit: int)
    requires Inv(s, t, expire, limit) && Finish(s, apt, key, third, refused, p).Go?
    requires var q := TierOf(s, third).pending; apt.task == t ==> t in q && apt == q[t]
    ensures var s2 := Finish(s, apt, key, third, refused, p).state;
            && Inv(s2, t, expire, limit) && s2.height == s.height
            && TierOf(s2, third).pending == TierOf(s, third).pending - {apt.task}
  {
    var v := SettleAudited(s, apt, TimeoutSuccess(s, apt, third, p), 0, refused, p);
    SettleAuditedEffect(s, apt, TimeoutSuccess(s, apt, third, p), 0, refused, p);
    CloseOutOnce(s, v.state, v.settled, apt, key, third, t, expire, limit);
  }

  lemma CloseOutOnce(s: State, s1: State, settled: bool, apt: Pending, key: TimeoutKey, third: bool, t: TaskId,
                     expire: int, limit: int)
    requires Inv(s, t, expire, limit) && Audited(s, s1, apt, settled)
    requires var q := TierOf(s, third).pending; apt.task == t ==> t in q && apt == q[t]
    ensures var s2 := CloseOut(s1, settled, apt, key, third);
            && Inv(s2, t, expire, limit) && s2.height == s.height
            && TierOf(s2, third).pending == TierOf(s, third).pending - {apt.task}
  {
    var tier := TierOf(s, third);
    var s0 := WithTier(s, third, Tier(tier.pending - {apt.task}, tier.index - {key}));
    DroppedOnce(s, s0, third, apt.task, t, expire, limit);
    AuditedOnce(s, s1, settled, s0, apt, t, expire, limit);
    var s3 := Retiered(s1, s0.second, s0.third);
    if !settled { RecordOnce(s3, AuditJob(apt), t, expire, limit); }
    assert CloseOut(s1, settled, apt, key, third) == if settled then s3 else Record(s3, AuditJob(apt), TaskFailed, 0);
  }

  lemma {:induction false} SweepOnce(s: State, apts: seq<Pending>, keys: seq<TimeoutKey>, third: bool,
                                     refused: set<nat>, p: Params, t: TaskId, expire: int, limit: int)
    requires Inv(s, t, expire, limit) && |apts| <= |keys| && Sweep(s, apts, keys, third, refused, p).Go?
    requires Single(apts, TierOf(s, third).pending, t)
    ensures var s2 := Sweep(s, apts, keys, third, refused, p).state; Inv(s2, t, expire, limit) && s2.height == s.height
    decreases |apts|
  {
    if apts != [] {
      var s1 := Finish(s, apts[0], keys[0], third, refused, p).state;
      FinishOnce(s, apts[0], keys[0], third, refused, p, t, expire, limit);
      assert Single(apts[1..], TierOf(s1, third).pending, t) by {
        assert forall i :: 0 <= i < |apts[1..]| ==> apts[1..][i] == apts[i + 1];
      }
      SweepOnce(s1, apts[1..], keys[1..], third, refused, p, t, expire, limit);
    }
  }

  lemma TimeoutsOnce(s: State, keys: seq<TimeoutKey>, third: bool, refused: set<nat>, p: Params, t: TaskId, expire: int,
                     limit: int, cutoff: int)
    requires Inv(s, t, expire, limit) && Timeouts(s, keys, third, refused, p).Go?
    requires IsScan(keys, TierOf(s, third).index, cutoff)
    ensures var s2 := Timeouts(s, keys, third, refused, p).state; Inv(s2, t, expire, limit) && s2.height == s.height
  {
    var tier := TierOf(s, third);
    forall i | 0 <= i < |keys| && keys[i].1 == t && t in tier.pending ensures keys[i].0 == tier.pending[t].submittedAt {
      assert keys[i] in keys && (keys[i].0, t) in tier.index;
    }
    CollectSingle(tier, keys, t);
    if s.height > if third then p.thirdTimeout else p.secondTimeout {
      SweepOnce(s, Collect(tier.pending, keys), keys, third, refused, p, t, expire, limit);
    }
  }

  // ---------- Blocks, steps and runs ----------

  lemma CleanupOnce(s: State, p: Params, t: TaskId, expire: int)
    requires Inv(s, t, expire, s.height) && (t in s.hist.firstAt ==> SafeExpiry(expire, s.hist.firstAt[t], p))
    ensures Inv(Cleanup(s, p), t, expire, s.height + 1)
  {
  }

  lemma BlockOnce(s: State, scan2: seq<TimeoutKey>, scan3: seq<TimeoutKey>, refused: set<nat>, p: Params, t: TaskId,
                  expire: int)
    requires Inv(s, t, expire, s.height) && (t in s.hist.firstAt ==> SafeExpiry(expire, s.hist.firstAt[t], p))
    requires EndBlock(s, scan2, scan3, refused, p).Go?
    requires IsScan(scan2, s.second.index, s.height - p.secondTimeout)
    requires IsScan(scan3, s.third.index, s.height - p.thirdTimeout)
    ensures var s2 := EndBlock(s, scan2, scan3, refused, p).state; Inv(s2, t, expire, s2.height)
  {
    var s1, s2 := BlockParts(s, scan2, scan3, refused, p);
    CleanupOnce(s, p, t, expire);
    TimeoutsOnce(Cleanup(s, p), scan2, false, refused, p, t, expire, s.height + 1, s.height - p.secondTimeout);
    TimeoutsThird(Cleanup(s, p), scan2, refused, p);
    TimeoutsOnce(s1, scan3, true, refused, p, t, expire, s.height + 1, s.height - p.thirdTimeout);
  }

  /** Sweeping the second tier leaves the third alone. */
  lemma TimeoutsThird(s: State, keys: seq<TimeoutKey>, refused: set<nat>, p: Params)
    requires Timeouts(s, keys, false, refused, p).Go?
    ensures Timeouts(s, keys, false, refused, p).state.third == s.third
  {
    if s.height > p.secondTimeout { SweepThird(s, Collect(s.second.pending, keys), keys, refused, p); }
  }

  lemma {:induction false} SweepThird(s: State, apts: seq<Pending>, keys: seq<TimeoutKey>, refused: set<nat>, p: Params)
    requires |apts| <= |keys| && Sweep(s, apts, keys, false, refused, p).Go?
    ensures Sweep(s, apts, keys, false, refused, p).state.third == s.third
    decreases |apts|
  {
    if apts != [] {
      SettleAuditedEffect(s, apts[0], TimeoutSuccess(s, apts[0], false, p), 0, refused, p);
      SweepThird(Finish(s, apts[0], keys[0], false, refused, p).state, apts[1..], keys[1..], refused, p);
    }
  }

  lemma {:induction false} ReservesCalm(s: State, es: seq<ReserveEntry>, t: TaskId)
    requires ReserveAll(s, es).Go?
    ensures var s2 := ReserveAll(s, es).state; Calm(s, s2, t) && s2.second == s.second && s2.third == s.third
    decreases |es|
  {
    if es != [] { ReservesCalm(Reserve(s, es[0]).state, es[1..], t); }
  }

  /** A fraud proof changes no more than the status of a settled record. */
  lemma FraudOnce(s: State, m: FraudMsg, p: Params, t: TaskId, expire: int)
    requires Inv(s, t, expire, s.height)
    ensures var s2 := FraudProof(s, m, p); Inv(s2, t, expire, s2.height)
  {
    FraudEffect(s, m, p);
    FraudRecord(s, m, p, t);
  }

  /** What callers must respect for this task: its expire_block is fixed. */
  ghost predicate Fixed(step: Step, t: TaskId, expire: int) {
    step.SettleStep? ==>
      forall i :: 0 <= i < |step.rows| && step.rows[i].entry.task == t ==> step.rows[i].entry.expire == expire
  }

  lemma AccountsOnce(s: State, s2: State, t: TaskId, expire: int)
    requires Inv(s, t, expire, s.height) && s2 == s.(accounts := s2.accounts, bank := s2.bank)
    ensures Inv(s2, t, expire, s2.height)
  {
    CalmOnce(s, s2, t, expire, s.height);
  }

  lemma ReservesOnce(s: State, es: seq<ReserveEntry>, t: TaskId, expire: int)
    requires Inv(s, t, expire, s.height) && ReserveAll(s, es).Go?
    ensures var s2 := ReserveAll(s, es).state; Inv(s2, t, expire, s2.height)
  {
    ReservesCalm(s, es, t);
    CalmOnce(s, ReserveAll(s, es).state, t, expire, s.height);
  }

  lemma AuditsOnce(s: State, ms: seq<AuditInput>, p: Params, t: TaskId, expire: int)
    requires Inv(s, t, expire, s.height) && AuditAll(s, ms, p).Go?
    ensures var s2 := AuditAll(s, ms, p).state; Inv(s2, t, expire, s2.height)
  {
    ResultsOnce(s, ms, p, t, expire, s.height);
    AuditsMove(s, ms, p);
  }

  lemma StepOnce(s: State, step: Step, p: Params, t: TaskId, expire: int)
    requires Inv(s, t, expire, s.height) && (t in s.hist.firstAt ==> SafeExpiry(expire, s.hist.firstAt[t], p))
    requires Enabled(s, step, p) && Fixed(step, t, expire)
    ensures Inv(Apply(s, step, p), t, expire, Apply(s, step, p).height)
  {
    match step
    case ReserveStep(header, entries) =>
      if header && ReserveAll(s, entries).Go? { ReservesOnce(s, entries, t, expire); }
    case SettleStep(header, rows) =>
      if header && SettleAll(s, rows, p).Go? { RowsOnce(s, rows, p, t, expire); }
    case AuditStep(results) =>
      if AuditAll(s, results, p).Go? { AuditsOnce(s, results, p, t, expire); }
    case FraudStep(proof) => FraudOnce(s, proof, p, t, expire);
    case EndBlockStep(scan2, scan3, refused) => BlockOnce(s, scan2, scan3, refused, p, t, expire);
    case _ => AccountsOnce(s, Apply(s, step, p), t, expire);
  }

  lemma {:induction false} RunOnce(s: State, steps: seq<Step>, p: Params, t: TaskId, expire: int)
    requires Inv(s, t, expire, s.height) && IsRun(s, steps, p)
    requires forall i :: 0 <= i < |steps| ==> Fixed(steps[i], t, expire)
    requires var s2 := Run(s, steps, p); t in s2.hist.firstAt ==> SafeExpiry(expire, s2.hist.firstAt[t], p)
    ensures var s2 := Run(s, steps, p); Inv(s2, t, expire, s2.height)
    decreases |steps|
  {
    if steps != [] {
      RunAdvances(s, steps, p);
      StepOnce(s, steps[0], p, t, expire);
      RunOnce(Apply(s, steps[0], p), steps[1..], p, t, expire);
    }
  }

  /** A run from genesis in which the task's own expiry is fixed and safe for its first record. */
  ghost predicate SafeRun(bank: Bank, steps: seq<Step>, p: Params, t: TaskId, expire: int) {
    var s := Run(Genesis(bank), steps, p);
    && IsRun(Genesis(bank), steps, p) && (forall i :: 0 <= i < |steps| ==> Fixed(steps[i], t, expire))
    && (t in s.hist.firstAt ==> SafeExpiry(expire, s.hist.firstAt[t], p))
  }

  /** Single charge: no mix of batches, failed payouts, audits, escalations, timeouts, fraud proofs
      and cleanup debits the task twice, whatever the expiries of other tasks. */
  lemma SingleCharge(bank: Bank, steps: seq<Step>, p: Params, t: TaskId, expire: int)
    requires SafeRun(bank, steps, p, t, expire)
    ensures Get(Run(Genesis(bank), steps, p).hist.charges, t) <= 1
  {
    RunOnce(Genesis(bank), steps, p, t, expire);
  }

  /** And its record tells the truth about its money: no worker was paid for a task recorded as failed,
      pending and failed tasks were not charged at all, and a settled task was charged once. */
  lemma RecordsAreTruthful(bank: Bank, steps: seq<Step>, p: Params, t: TaskId, expire: int)
    requires SafeRun(bank, steps, p, t, expire)
    ensures Truthful(Run(Genesis(bank), steps, p), t)
  {
    RunOnce(Genesis(bank), steps, p, t, expire);
  }

  /** Its second verifiers are none of the verifiers it came with, it is in one tier at a time, and it is never
      sent to audit while it awaits one. */
  lemma NoOriginalVerifier(bank: Bank, steps: seq<Step>, p: Params, t: TaskId, expire: int)
    requires SafeRun(bank, steps, p, t, expire)
    ensures var s := Run(Genesis(bank), steps, p);
            && (t in s.audits ==>
                  t in s.hist.originals && forall v :: v in s.audits[t].verifiers ==> v !in s.hist.originals[t])
            && (t in s.second.pending ==> t !in s.third.pending) && t !in s.hist.reopened
  {
    RunOnce(Genesis(bank), steps, p, t, expire);
  }

  /** Exactly an entry submitted after the cutoff is left, unchanged, and one without an id. */
  ghost predicate LeftAfter(tier: Tier, swept: Tier, t: TaskId, cutoff: int) {
    && (t in swept.pending <==> t in tier.pending && (t == [] || tier.pending[t].submittedAt > cutoff))
    && (t in swept.pending ==> swept.pending[t] == tier.pending[t])
  }

  lemma OwnKeyOnly(s: State, third: bool, swept: Tier, t: TaskId, expire: int, limit: int, cutoff: int)
    requires Inv(s, t, expire, limit) && Audits.Filed(TierOf(s, third), third)
    requires Audits.SweptTo(TierOf(s, third), swept, cutoff)
    ensures LeftAfter(TierOf(s, third), swept, t, cutoff)
  {
    var tier := TierOf(s, third);
    if t in tier.pending && t != [] {
      assert (tier.pending[t].submittedAt, t) in tier.index;
      assert Audits.NotDue(tier, t, cutoff) <==> tier.pending[t].submittedAt > cutoff;
    }
  }

  /** A block closes its audit exactly when the timeout of its tier is over. */
  lemma ClosedOnTime(bank: Bank, steps: seq<Step>, last: Step, p: Params, t: TaskId, expire: int)
    requires SafeRun(bank, steps, p, t, expire) && last.EndBlockStep?
    requires Enabled(Run(Genesis(bank), steps, p), last, p)
    ensures var s := Run(Genesis(bank), steps, p);
            var s2 := Apply(s, last, p);
            && LeftAfter(s.second, s2.second, t, s.height - p.secondTimeout)
            && LeftAfter(s.third, s2.third, t, s.height - p.thirdTimeout)
  {
    var s := Run(Genesis(bank), steps, p);
    var s2 := Apply(s, last, p);
    RunOnce(Genesis(bank), steps, p, t, expire);
    Audits.ReachableInv(bank, steps, p);
    Audits.BoundedAuditLifetime(bank, steps, last, p);
    OwnKeyOnly(s, false, s2.second, t, expire, s.height, s.height - p.secondTimeout);
    OwnKeyOnly(s, true, s2.third, t, expire, s.height, s.height - p.thirdTimeout);
  }

  /** When every task is like that and has an id, the timeout indexes hold exactly the pending entries. */
  lemma SafeRunsAgree(bank: Bank, steps: seq<Step>, p: Params, expiry: TaskId -> int, t: TaskId, h: int)
    requires forall u :: SafeRun(bank, steps, p, u, expiry(u))
    requires Run(Genesis(bank), steps, p).hist.named
    ensures var s := Run(Genesis(bank), steps, p);
            && ((h, t) in s.second.index <==> t in s.second.pending && s.second.pending[t].submittedAt == h)
            && ((h, t) in s.third.index <==> t in s.third.pending && s.third.pending[t].submittedAt == h)
  {
    var s := Run(Genesis(bank), steps, p);
    assert SafeRun(bank, steps, p, t, expiry(t));
    forall u ensures u !in s.hist.reopened { NoOriginalVerifier(bank, steps, p, u, expiry(u)); }
    Audits.TimeoutIndexAgrees(bank, steps, p, t, h);
  }
}
