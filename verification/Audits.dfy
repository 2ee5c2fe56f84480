/** Audits in every reachable state, whatever the expiries: records and tiers, timeout indexes, and the
    entries a block closes (x/settlement/keeper/keeper.go:239-283, 928-960, 1686-1931, 2348-2459). */
module Audits {
  import opened Sums
  import opened FeeSplit
  import opened Ledger
  import opened Effects
  import opened Runs

  // ---------- The invariant ----------

  /** Entries are filed under their task, in the tier they are flagged for, since block 1, and are listed under
      the height they were submitted at unless they have no id. */
  ghost predicate Filed(tier: Tier, third: bool) {
    && (forall t :: t in tier.pending ==>
          && tier.pending[t].task == t && tier.pending[t].third == third && tier.pending[t].submittedAt >= 1
          && (t != [] ==> (tier.pending[t].submittedAt, t) in tier.index))
    && (forall k :: k in tier.index ==> k.0 >= 1)
  }

  /** Parallel lists, at most the configured number of distinct second verifiers. */
  ghost predicate ListOk(ar: AuditRecord, p: Params) {
    && |ar.verifiers| == |ar.results| == |ar.inTokens| == |ar.outTokens|
    && 1 <= |ar.verifiers| <= p.secondVerifiers
    && (forall i, j :: 0 <= i < j < |ar.verifiers| ==> ar.verifiers[i] != ar.verifiers[j])
  }

  predicate Complete(s: State, p: Params, t: TaskId) {
    t in s.audits && |s.audits[t].results| >= p.secondVerifiers
  }

  /** A task is judged once, when its record is complete, and only then can it be in the third tier. */
  ghost predicate AuditOk(s: State, p: Params, t: TaskId) {
    && (t in s.audits ==> ListOk(s.audits[t], p))
    && Get(s.hist.judged, t) == (if Complete(s, p, t) then 1 else 0)
    && (t in s.third.pending ==> Complete(s, p, t))
  }

  /** Nothing is listed but the pending entries. */
  ghost predicate Tight(tier: Tier) {
    forall h, t :: (h, t) in tier.index ==> t != [] && t in tier.pending && tier.pending[t].submittedAt == h
  }

  ghost predicate Tidy(s: State) {
    && Tight(s.second) && Tight(s.third) && [] !in s.second.pending && [] !in s.third.pending
    && (forall t :: t in s.second.pending ==> t !in s.third.pending)
  }

  /** TaskFraud is only ever written together with the mark. */
  ghost predicate Marked(s: State) {
    forall t :: t in s.settled && s.settled[t].status == TaskFraud ==> t in s.fraud
  }

  ghost predicate Inv(s: State, p: Params) {
    && s.height >= 1 && Filed(s.second, false) && Filed(s.third, true) && (forall t :: AuditOk(s, p, t)) && Marked(s)
    && (s.hist.named && s.hist.reopened == {} ==> Tidy(s))
  }

  // ---------- Messages ----------

  /** Whatever is done outside tiers and audit records. */
  lemma HandledKeeps(s: State, s2: State, t: TaskId, p: Params)
    requires Inv(s, p) && Handles(s, s2, t)
    requires s2.second == s.second && s2.third == s.third && s2.hist.judged == s.hist.judged
    ensures Inv(s2, p)
  {
    forall u ensures AuditOk(s2, p, u) { assert AuditOk(s, p, u); }
  }

  lemma DropKeeps(s: State, t: TaskId, p: Params)
    requires Inv(s, p)
    ensures Inv(s.(second := Drop(s.second, t)), p)
  {
    var s2 := s.(second := Drop(s.second, t));
    forall u ensures AuditOk(s2, p, u) { assert AuditOk(s, p, u); }
  }

  lemma OpenAuditKeeps(s: State, e: Entry, p: Params)
    requires Inv(s, p)
    ensures Inv(OpenAudit(s, e), p)
  {
    var s2 := OpenAudit(s, e);
    forall u ensures AuditOk(s2, p, u) { assert AuditOk(s, p, u); }
    assert UnderAudit(s, e.task) ==> e.task in s2.hist.reopened;
    assert s.hist.reopened <= s2.hist.reopened;
  }

  lemma RowKeeps(s: State, x: EntryInput, p: Params)
    requires Inv(s, p) && SettleEntry(s, x, p).Go?
    ensures Inv(SettleEntry(s, x, p).state, p)
  {
    if SettledNow(s, x, p) {
      RowHandles(s, x, p);
      HandledKeeps(s, SettleEntry(s, x, p).state, x.entry.task, p);
    } else if !Skipped(s, x.entry) {
      OpenAuditKeeps(s, x.entry, p);
    }
  }

  lemma {:induction false} RowsKeep(s: State, xs: seq<EntryInput>, p: Params)
    requires Inv(s, p) && SettleAll(s, xs, p).Go?
    ensures Inv(SettleAll(s, xs, p).state, p)
    decreases |xs|
  {
    if xs != [] {
      RowKeeps(s, xs[0], p);
      RowsKeep(SettleEntry(s, xs[0], p).state, xs[1..], p);
    }
  }

  lemma EscalateKeeps(s: State, apt: Pending, p: Params)
    requires Inv(s, p) && apt.task in s.second.pending && s.second.pending[apt.task] == apt
    requires Complete(s, p, apt.task)
    ensures Inv(Escalate(s, apt), p)
  {
    var s2 := Escalate(s, apt);
    forall u ensures AuditOk(s2, p, u) { assert AuditOk(s, p, u); }
  }

  lemma ResolvedKeeps(s0: State, s2: State, apt: Pending, p: Params)
    requires Inv(CountJudgment(s0, apt.task), p) && Judged(s0, s2, apt, false)
    ensures Inv(s2, p)
  {
    var s := CountJudgment(s0, apt.task);
    DropKeeps(s, apt.task, p);
    HandledKeeps(s.(second := s2.second), s2, apt.task, p);
  }

  /** The judgment is only ever given a second-tier entry, and keeps the invariant. */
  lemma JudgeKeeps(s0: State, apt: Pending, ar: AuditRecord, escalate: bool, refused: set<nat>, p: Params)
    requires Inv(CountJudgment(s0, apt.task), p) && Complete(s0, p, apt.task)
    requires apt.task in s0.second.pending && s0.second.pending[apt.task] == apt
    requires Judge(s0, apt, ar, escalate, refused, p).Go?
    ensures !apt.third
    ensures Inv(Judge(s0, apt, ar, escalate, refused, p).state, p)
  {
    var s, s2 := CountJudgment(s0, apt.task), Judge(s0, apt, ar, escalate, refused, p).state;
    JudgeEffect(s0, apt, ar, escalate, refused, p);
    if escalate { EscalateKeeps(s, apt, p); } else { ResolvedKeeps(s0, s2, apt, p); }
  }

  /** The record a result makes, starting one if there is none. */
  function Extended(s: State, m: AuditInput): AuditRecord {
    Extend(if m.task in s.audits then s.audits[m.task] else AuditRecord([], [], [], [], 0), m, s.height)
  }

  lemma ExtendedListOk(s: State, m: AuditInput, p: Params)
    requires Inv(s, p) && !AuditRejected(s, m, p)
    ensures ListOk(Extended(s, m), p) && Get(s.hist.judged, m.task) == 0 && m.task !in s.third.pending
  {
    assert AuditOk(s, p, m.task);
  }

  /** Adding a result, and counting the judgment when it completes the record. */
  lemma ExtendKeeps(s: State, m: AuditInput, s2: State, p: Params)
    requires Inv(s, p) && !AuditRejected(s, m, p)
    requires var ar := Extended(s, m);
             var s1 := s.(audits := s.audits[m.task := ar]);
             s2 == if |ar.results| >= p.secondVerifiers then CountJudgment(s1, m.task) else s1
    ensures Inv(s2, p)
  {
    ExtendedListOk(s, m, p);
    forall u ensures AuditOk(s2, p, u) { assert AuditOk(s, p, u); }
  }

  lemma ResultKeeps(s: State, m: AuditInput, p: Params)
    requires Inv(s, p) && AuditResult(s, m, p).Go?
    ensures Inv(AuditResult(s, m, p).state, p)
  {
    if !AuditRejected(s, m, p) {
      var ar := Extended(s, m);
      var s1 := s.(audits := s.audits[m.task := ar]);
      ExtendKeeps(s, m, if |ar.results| >= p.secondVerifiers then CountJudgment(s1, m.task) else s1, p);
      if |ar.results| >= p.secondVerifiers {
        JudgeKeeps(s1, s.second.pending[m.task], ar, m.escalate, m.refused, p);
      }
    }
  }

  lemma {:induction false} ResultsKeep(s: State, ms: seq<AuditInput>, p: Params)
    requires Inv(s, p) && AuditAll(s, ms, p).Go?
    ensures Inv(AuditAll(s, ms, p).state, p)
    decreases |ms|
  {
    if ms != [] {
      ResultKeeps(s, ms[0], p);
      ResultsKeep(AuditResult(s, ms[0], p).state, ms[1..], p);
    }
  }

  lemma FraudKeeps(s: State, m: FraudMsg, p: Params)
    requires Inv(s, p)
    ensures Inv(FraudProof(s, m, p), p)
  {
    var s2 := FraudProof(s, m, p);
    FraudEffect(s, m, p);
    forall t | t in s2.settled && s2.settled[t].status == TaskFraud ensures t in s2.fraud { FraudRecord(s, m, p, t); }
    forall u ensures AuditOk(s2, p, u) { assert AuditOk(s, p, u); }
  }

  lemma {:induction false} ReservesKeep(s: State, es: seq<ReserveEntry>, p: Params)
    requires Inv(s, p) && ReserveAll(s, es).Go?
    ensures Inv(ReserveAll(s, es).state, p)
    decreases |es|
  {
    if es != [] {
      HandledKeeps(s, Reserve(s, es[0]).state, [], p);
      ReservesKeep(Reserve(s, es[0]).state, es[1..], p);
    }
  }

  // ---------- The two lists of a sweep ----------

  ghost function TasksOf(apts: seq<Pending>): set<TaskId> { set a | a in apts :: a.task }

  ghost function Taken(keys: seq<TimeoutKey>, n: nat): set<TimeoutKey>
    requires n <= |keys|
  {
    set i | 0 <= i < n :: keys[i]
  }

  /** The tier with the collected entries closed and the first keys of the scan deleted. */
  ghost function Swept(tier: Tier, apts: seq<Pending>, keys: seq<TimeoutKey>): Tier
    requires |apts| <= |keys|
  {
    Tier(tier.pending - TasksOf(apts), tier.index - Taken(keys, |apts|))
  }

  lemma SweepSets(apts: seq<Pending>, keys: seq<TimeoutKey>)
    requires 0 < |apts| <= |keys|
    ensures TasksOf(apts) == {apts[0].task} + TasksOf(apts[1..])
    ensures Taken(keys, |apts|) == {keys[0]} + Taken(keys[1..], |apts| - 1)
  {
    assert apts == [apts[0]] + apts[1..];
    assert forall i :: 0 < i < |apts| ==> keys[i] == keys[1..][i - 1];
  }

  lemma SweptStep(tier: Tier, apts: seq<Pending>, keys: seq<TimeoutKey>)
    requires |apts| <= |keys|
    ensures apts == [] ==> Swept(tier, apts, keys) == tier
    ensures apts != [] ==>
              Swept(tier, apts, keys) ==
              Swept(Tier(tier.pending - {apts[0].task}, tier.index - {keys[0]}), apts[1..], keys[1..])
  {
    if apts != [] {
      SweepSets(apts, keys);
      assert tier.pending - TasksOf(apts) == tier.pending - {apts[0].task} - TasksOf(apts[1..]);
    } else {
      assert tier.pending - TasksOf(apts) == tier.pending;
    }
  }

  ghost predicate HasKey(keys: seq<TimeoutKey>, t: TaskId) { exists i :: 0 <= i < |keys| && keys[i].1 == t }

  lemma HasKeyNext(keys: seq<TimeoutKey>, t: TaskId)
    requires keys != []
    ensures HasKey(keys, t) <==> keys[0].1 == t || HasKey(keys[1..], t)
  {
    if HasKey(keys[1..], t) { var i :| 0 <= i < |keys| - 1 && keys[1..][i].1 == t; assert keys[i + 1].1 == t; }
    if i :| 1 <= i < |keys| && keys[i].1 == t { assert keys[1..][i - 1].1 == t; }
  }

  lemma CollectNext(pending: map<TaskId, Pending>, keys: seq<TimeoutKey>)
    requires keys != [] && forall u :: u in pending ==> pending[u].task == u
    ensures TasksOf(Collect(pending, keys)) ==
            (if keys[0].1 != [] && keys[0].1 in pending then {keys[0].1} else {}) + TasksOf(Collect(pending, keys[1..]))
  {
    var t, rest := keys[0].1, Collect(pending, keys[1..]);
    if t != [] && t in pending {
      assert Collect(pending, keys) == [pending[t]] + rest;
      assert forall a :: a in [pending[t]] + rest <==> a == pending[t] || a in rest;
    } else {
      assert Collect(pending, keys) == rest;
    }
  }

  /** The scan collects exactly the pending entries with an id that some scanned key names. */
  lemma {:induction false} CollectedTasks(pending: map<TaskId, Pending>, keys: seq<TimeoutKey>, t: TaskId)
    requires forall u :: u in pending ==> pending[u].task == u
    ensures t in TasksOf(Collect(pending, keys)) <==> t != [] && t in pending && HasKey(keys, t)
  {
    if keys != [] {
      CollectedTasks(pending, keys[1..], t);
      CollectNext(pending, keys);
      HasKeyNext(keys, t);
    }
  }

  /** With nothing listed but pending entries the two lists of the scan stay aligned: entry i has key i. */
  lemma {:induction false} CollectAligned(tier: Tier, third: bool, keys: seq<TimeoutKey>)
    requires Filed(tier, third) && Tight(tier) && forall k :: k in keys ==> k in tier.index
    ensures var apts := Collect(tier.pending, keys);
            |apts| == |keys| && forall i :: 0 <= i < |keys| ==> keys[i] == (apts[i].submittedAt, apts[i].task)
  {
    if keys != [] {
      CollectAligned(tier, third, keys[1..]);
      var k := keys[0];
      assert k in keys && (k.0, k.1) in tier.index;
      assert Collect(tier.pending, keys) == [tier.pending[k.1]] + Collect(tier.pending, keys[1..]);
    }
  }

  // ---------- The end of a block ----------

  /** Left are, unchanged, exactly the entries that no key up to the cutoff names, and one without an id. */
  ghost predicate SweptTo(tier: Tier, swept: Tier, cutoff: int) {
    forall t :: (t in swept.pending <==> t in tier.pending && (t == [] || NotDue(tier, t, cutoff)))
             && (t in swept.pending ==> swept.pending[t] == tier.pending[t])
  }

  ghost predicate NotDue(tier: Tier, t: TaskId, cutoff: int) { forall h :: (h, t) in tier.index ==> h > cutoff }

  function CutoffOf(s: State, third: bool, p: Params): int {
    s.height - if third then p.thirdTimeout else p.secondTimeout
  }

  lemma ScannedIsDue(tier: Tier, keys: seq<TimeoutKey>, cutoff: int, t: TaskId)
    requires IsScan(keys, tier.index, cutoff)
    ensures HasKey(keys, t) <==> !NotDue(tier, t, cutoff)
  {
    if HasKey(keys, t) {
      var i :| 0 <= i < |keys| && keys[i].1 == t;
      assert keys[i] in keys && (keys[i].0, t) in tier.index;
    }
    if h :| (h, t) in tier.index && h <= cutoff {
      assert (h, t) in keys;
      var i :| 0 <= i < |keys| && keys[i] == (h, t);
      assert keys[i].1 == t;
    }
  }

  lemma SweptIsSweptTo(tier: Tier, third: bool, keys: seq<TimeoutKey>, cutoff: int)
    requires Filed(tier, third) && IsScan(keys, tier.index, cutoff)
    ensures SweptTo(tier, Swept(tier, Collect(tier.pending, keys), keys), cutoff)
  {
    forall t ensures t in TasksOf(Collect(tier.pending, keys)) <==>
                     t != [] && t in tier.pending && !NotDue(tier, t, cutoff)
    {
      CollectedTasks(tier.pending, keys, t);
      ScannedIsDue(tier, keys, cutoff, t);
    }
  }

  /** A sweep never deletes the key of an entry it leaves, even with lists out of step. */
  lemma SweptFiled(tier: Tier, third: bool, keys: seq<TimeoutKey>)
    requires Filed(tier, third)
    ensures Filed(Swept(tier, Collect(tier.pending, keys), keys), third)
  {
    var apts := Collect(tier.pending, keys);
    var swept := Swept(tier, apts, keys);
    forall t | t in swept.pending && t != [] ensures (swept.pending[t].submittedAt, t) in swept.index {
      CollectedTasks(tier.pending, keys, t);
    }
  }

  lemma OneKeyEach(tier: Tier, keys: seq<TimeoutKey>, h: int, t: TaskId)
    requires Tight(tier) && (h, t) in tier.index && forall k :: k in keys ==> k in tier.index
    ensures HasKey(keys, t) ==> (h, t) in keys
  {
    if HasKey(keys, t) {
      var i :| 0 <= i < |keys| && keys[i].1 == t;
      var g := keys[i].0;
      assert keys[i] == (g, t) && keys[i] in keys;
      assert (g, t) in tier.index && g == tier.pending[t].submittedAt == h;
    }
  }

  lemma SweptTight(tier: Tier, third: bool, keys: seq<TimeoutKey>, cutoff: int)
    requires Filed(tier, third) && Tight(tier) && IsScan(keys, tier.index, cutoff)
    ensures Tight(Swept(tier, Collect(tier.pending, keys), keys))
  {
    CollectAligned(tier, third, keys);
    var apts := Collect(tier.pending, keys);
    var swept := Swept(tier, apts, keys);
    assert forall k :: k in keys ==> k in Taken(keys, |apts|);
    forall h, t | (h, t) in swept.index ensures t != [] && t in swept.pending && swept.pending[t].submittedAt == h {
      CollectedTasks(tier.pending, keys, t);
      OneKeyEach(tier, keys, h, t);
    }
  }

  /** What a sweep leaves alone. */
  ghost predicate Beyond(s: State, s2: State) {
    && s2.height == s.height && s2.fraud == s.fraud && s2.audits == s.audits && s2.hist.judged == s.hist.judged
    && s2.hist.named == s.hist.named && s2.hist.reopened == s.hist.reopened
    && (forall t :: t in s2.settled && s2.settled[t].status == TaskFraud ==>
          t in s.settled && s.settled[t].status == TaskFraud)
  }

  /** The whole loop, in any state. */
  lemma {:induction false} SweepEffect(s: State, apts: seq<Pending>, keys: seq<TimeoutKey>, third: bool,
                                       refused: set<nat>, p: Params)
    requires |apts| <= |keys| && Sweep(s, apts, keys, third, refused, p).Go?
    ensures var s2 := Sweep(s, apts, keys, third, refused, p).state;
            && TierOf(s2, third) == Swept(TierOf(s, third), apts, keys)
            && TierOf(s2, !third) == TierOf(s, !third) && Beyond(s, s2)
    decreases |apts|
  {
    SweptStep(TierOf(s, third), apts, keys);
    if apts != [] {
      var s1 := Finish(s, apts[0], keys[0], third, refused, p).state;
      FinishEffect(s, apts[0], keys[0], third, refused, p);
      assert Beyond(s, s1);
      SweepEffect(s1, apts[1..], keys[1..], third, refused, p);
    }
  }

  /** A sweep keeps the invariant and closes exactly what is due. */
  lemma TimeoutsKeep(s: State, keys: seq<TimeoutKey>, third: bool, refused: set<nat>, p: Params)
    requires Inv(s, p) && Timeouts(s, keys, third, refused, p).Go?
    requires IsScan(keys, TierOf(s, third).index, CutoffOf(s, third, p))
    ensures var s2 := Timeouts(s, keys, third, refused, p).state;
            && Inv(s2, p) && s2.height == s.height && TierOf(s2, !third) == TierOf(s, !third)
            && SweptTo(TierOf(s, third), TierOf(s2, third), CutoffOf(s, third, p))
  {
    var tier := TierOf(s, third);
    if CutoffOf(s, third, p) > 0 {
      SweepEffect(s, Collect(tier.pending, keys), keys, third, refused, p);
      SweptKeeps(s, Timeouts(s, keys, third, refused, p).state, keys, third, p);
      SweptIsSweptTo(tier, third, keys, CutoffOf(s, third, p));
    }
  }

  lemma SweptKeeps(s: State, s2: State, keys: seq<TimeoutKey>, third: bool, p: Params)
    requires Inv(s, p) && IsScan(keys, TierOf(s, third).index, CutoffOf(s, third, p))
    requires TierOf(s2, third) == Swept(TierOf(s, third), Collect(TierOf(s, third).pending, keys), keys)
    requires TierOf(s2, !third) == TierOf(s, !third) && Beyond(s, s2)
    ensures Inv(s2, p)
  {
    SweptFiled(TierOf(s, third), third, keys);
    forall u ensures AuditOk(s2, p, u) { assert AuditOk(s, p, u); }
    if s.hist.named && s.hist.reopened == {} { SweptTight(TierOf(s, third), third, keys, CutoffOf(s, third, p)); }
  }

  lemma CleanupKeeps(s: State, p: Params)
    requires Inv(s, p)
    ensures Inv(Cleanup(s, p), p)
  {
    var s2 := Cleanup(s, p);
    forall u ensures AuditOk(s2, p, u) { assert AuditOk(s, p, u); }
  }

  lemma TickKeeps(s: State, p: Params)
    requires Inv(s, p)
    ensures Inv(s.(height := s.height + 1), p)
  {
    var s2 := s.(height := s.height + 1);
    forall u ensures AuditOk(s2, p, u) { assert AuditOk(s, p, u); }
  }

  /** One block: the invariant, and what is closed in both tiers. */
  lemma EndBlockKeeps(s: State, scan2: seq<TimeoutKey>, scan3: seq<TimeoutKey>, refused: set<nat>, p: Params)
    requires Inv(s, p) && Enabled(s, EndBlockStep(scan2, scan3, refused), p)
    ensures var s2 := EndBlock(s, scan2, scan3, refused, p).state;
            && Inv(s2, p) && s2.height == s.height + 1
            && SweptTo(s.second, s2.second, s.height - p.secondTimeout)
            && SweptTo(s.third, s2.third, s.height - p.thirdTimeout)
  {
    var s1, s2 := BlockParts(s, scan2, scan3, refused, p);
    CleanupKeeps(s, p);
    TimeoutsKeep(Cleanup(s, p), scan2, false, refused, p);
    TimeoutsKeep(s1, scan3, true, refused, p);
    TickKeeps(s2, p);
  }

  // ---------- Whole runs ----------

  lemma AccountsKeep(s: State, s2: State, p: Params)
    requires Inv(s, p) && s2 == s.(accounts := s2.accounts, bank := s2.bank)
    ensures Inv(s2, p)
  {
    HandledKeeps(s, s2, [], p);
  }

  lemma StepKeeps(s: State, step: Step, p: Params)
    requires Inv(s, p) && Enabled(s, step, p)
    ensures Inv(Apply(s, step, p), p)
  {
    match step
    case ReserveStep(header, entries) => if header && ReserveAll(s, entries).Go? { ReservesKeep(s, entries, p); }
    case SettleStep(header, rows) => if header && SettleAll(s, rows, p).Go? { RowsKeep(s, rows, p); }
    case AuditStep(results) => if AuditAll(s, results, p).Go? { ResultsKeep(s, results, p); }
    case FraudStep(proof) => FraudKeeps(s, proof, p);
    case EndBlockStep(scan2, scan3, refused) => EndBlockKeeps(s, scan2, scan3, refused, p);
    case _ => AccountsKeep(s, Apply(s, step, p), p);
  }

  lemma {:induction false} RunKeeps(s: State, steps: seq<Step>, p: Params)
    requires Inv(s, p) && IsRun(s, steps, p)
    ensures Inv(Run(s, steps, p), p)
    decreases |steps|
  {
    if steps != [] {
      StepKeeps(s, steps[0], p);
      RunKeeps(Apply(s, steps[0], p), steps[1..], p);
    }
  }

  /** Every reachable state satisfies the invariant. */
  lemma ReachableInv(bank: Bank, steps: seq<Step>, p: Params)
    requires IsRun(Genesis(bank), steps, p)
    ensures Inv(Run(Genesis(bank), steps, p), p)
  {
    RunKeeps(Genesis(bank), steps, p);
  }

  /** Audit records are well formed; a task is judged once, when its record is complete; and the entry the
      judgment finds is never a third-tier one. */
  lemma AuditIntegrity(bank: Bank, steps: seq<Step>, p: Params, t: TaskId)
    requires IsRun(Genesis(bank), steps, p)
    ensures var s := Run(Genesis(bank), steps, p);
            && (t in s.audits ==> ListOk(s.audits[t], p))
            && (Get(s.hist.judged, t) == 1 <==> t in s.audits && |s.audits[t].results| == p.secondVerifiers)
            && Get(s.hist.judged, t) <= 1
            && (t in s.second.pending ==> !s.second.pending[t].third && s.second.pending[t].task == t)
            && (t in s.third.pending ==>
                  s.third.pending[t].third && s.third.pending[t].task == t && Get(s.hist.judged, t) == 1)
  {
    ReachableInv(bank, steps, p);
    assert AuditOk(Run(Genesis(bank), steps, p), p, t);
  }

  /** A pending entry with an id is always listed, in the index of its tier and under its height. */
  lemma PendingIsListed(bank: Bank, steps: seq<Step>, p: Params, t: TaskId)
    requires IsRun(Genesis(bank), steps, p) && t != []
    ensures var s := Run(Genesis(bank), steps, p);
            && (t in s.second.pending ==> (s.second.pending[t].submittedAt, t) in s.second.index)
            && (t in s.third.pending ==> (s.third.pending[t].submittedAt, t) in s.third.index)
  {
    ReachableInv(bank, steps, p);
  }

  /** Pending entries and timeout keys match one to one in both tiers, and no task is in both, as long as no
      audit was opened for an empty task id or for a task that awaited one already. */
  lemma TimeoutIndexAgrees(bank: Bank, steps: seq<Step>, p: Params, t: TaskId, h: int)
    requires var s := Run(Genesis(bank), steps, p);
             IsRun(Genesis(bank), steps, p) && s.hist.named && s.hist.reopened == {}
    ensures var s := Run(Genesis(bank), steps, p);
            && ((h, t) in s.second.index <==> t in s.second.pending && s.second.pending[t].submittedAt == h)
            && ((h, t) in s.third.index <==> t in s.third.pending && s.third.pending[t].submittedAt == h)
            && (t in s.second.pending ==> t !in s.third.pending)
  {
    ReachableInv(bank, steps, p);
  }

  /** No entry with an id was submitted at the cutoff or before. */
  ghost predicate AllAfter(tier: Tier, cutoff: int) {
    forall t :: t in tier.pending && t != [] ==> tier.pending[t].submittedAt > cutoff
  }

  /** A block closes exactly the entries that a key up to the cutoff names, so none with an id outlives its
      tier's timeout. */
  lemma BoundedAuditLifetime(bank: Bank, steps: seq<Step>, last: Step, p: Params)
    requires IsRun(Genesis(bank), steps, p) && last.EndBlockStep? && Enabled(Run(Genesis(bank), steps, p), last, p)
    ensures var s := Run(Genesis(bank), steps, p);
            var s2 := Apply(s, last, p);
            && SweptTo(s.second, s2.second, s.height - p.secondTimeout)
            && SweptTo(s.third, s2.third, s.height - p.thirdTimeout)
            && AllAfter(s2.second, s.height - p.secondTimeout) && AllAfter(s2.third, s.height - p.thirdTimeout)
  {
    ReachableInv(bank, steps, p);
    BlockBounds(Run(Genesis(bank), steps, p), last.scan2, last.scan3, last.refused, p);
  }

  lemma BlockBounds(s: State, scan2: seq<TimeoutKey>, scan3: seq<TimeoutKey>, refused: set<nat>, p: Params)
    requires Inv(s, p) && Enabled(s, EndBlockStep(scan2, scan3, refused), p)
    ensures var s2 := EndBlock(s, scan2, scan3, refused, p).state;
            && SweptTo(s.second, s2.second, s.height - p.secondTimeout)
            && SweptTo(s.third, s2.third, s.height - p.thirdTimeout)
            && AllAfter(s2.second, s.height - p.secondTimeout) && AllAfter(s2.third, s.height - p.thirdTimeout)
  {
    var s2 := EndBlock(s, scan2, scan3, refused, p).state;
    EndBlockKeeps(s, scan2, scan3, refused, p);
    DueAreGone(s.second, false, s2.second, s.height - p.secondTimeout);
    DueAreGone(s.third, true, s2.third, s.height - p.thirdTimeout);
  }

  lemma DueAreGone(tier: Tier, third: bool, swept: Tier, cutoff: int)
    requires Filed(tier, third) && SweptTo(tier, swept, cutoff)
    ensures AllAfter(swept, cutoff)
  {
    forall t | t in swept.pending && t != [] ensures swept.pending[t].submittedAt > cutoff {
      assert (tier.pending[t].submittedAt, t) in tier.index;
    }
  }
}
