/** The batch accepts an empty task id, which the timeout scan cannot read back from its key
    (x/settlement/keeper/keeper.go:2381-2402): exactly when that disturbs the timeout index. */
module EmptyIds {
  import opened FeeSplit
  import opened Ledger
  import opened Effects
  import opened Runs
  import opened Audits
  import Uncovered

  /** Entries and keys match one to one. */
  ghost predicate Exact(tier: Tier) {
    && (forall t :: t in tier.pending ==> tier.pending[t].task == t)
    && (forall h, t :: (h, t) in tier.index <==> t in tier.pending && tier.pending[t].submittedAt == h)
  }

  /** Keys of distinct pending tasks. */
  ghost predicate Listed(pending: map<TaskId, Pending>, keys: seq<TimeoutKey>) {
    && (forall i :: 0 <= i < |keys| ==> keys[i].1 in pending && pending[keys[i].1].task == keys[i].1)
    && (forall i, j :: 0 <= i < j < |keys| ==> keys[i].1 != keys[j].1)
  }

  ghost predicate Unreadable(keys: seq<TimeoutKey>) { HasKey(keys, []) }

  lemma ListedNext(pending: map<TaskId, Pending>, keys: seq<TimeoutKey>)
    requires Listed(pending, keys) && keys != []
    ensures Listed(pending, keys[1..]) && (keys[0].1 == [] ==> !Unreadable(keys[1..]))
  {
  }

  lemma {:induction false} CollectLength(pending: map<TaskId, Pending>, keys: seq<TimeoutKey>)
    requires Listed(pending, keys)
    ensures |Collect(pending, keys)| == |keys| - (if Unreadable(keys) then 1 else 0)
  {
    if keys != [] {
      ListedNext(pending, keys);
      CollectLength(pending, keys[1..]);
      HasKeyNext(keys, []);
    }
  }

  /** The scan passes over the empty id and nothing else. */
  lemma CollectCount(pending: map<TaskId, Pending>, keys: seq<TimeoutKey>)
    requires Listed(pending, keys) && forall u :: u in pending ==> pending[u].task == u
    ensures var apts := Collect(pending, keys);
            && |apts| == |keys| - (if Unreadable(keys) then 1 else 0)
            && (forall t :: t in TasksOf(apts) <==> t != [] && HasKey(keys, t))
  {
    CollectLength(pending, keys);
    forall t ensures t in TasksOf(Collect(pending, keys)) <==> t != [] && HasKey(keys, t) {
      CollectedTasks(pending, keys, t);
    }
  }

  /** A sweep of an exact tier leaves it exact if and only if no empty id is overdue, or its key is
      the last one scanned. */
  lemma SweepExactIff(tier: Tier, keys: seq<TimeoutKey>, cutoff: int)
    requires Exact(tier) && IsScan(keys, tier.index, cutoff)
    ensures var swept := Swept(tier, Collect(tier.pending, keys), keys);
            Exact(swept) <==> (Unreadable(keys) ==> keys[|keys| - 1].1 == [])
  {
    ScanListed(tier, keys, cutoff);
    CollectCount(tier.pending, keys);
    var apts := Collect(tier.pending, keys);
    var n, swept := |keys|, Swept(tier, apts, keys);
    forall h, t ensures (h, t) in swept.index <==> (h, t) in tier.index && (h, t) !in keys[..|apts|] { }
    if Unreadable(keys) && keys[n - 1].1 != [] {
      var h, t := keys[n - 1].0, keys[n - 1].1;
      assert keys[n - 1] == (h, t) && (h, t) in keys;
      assert (h, t) in swept.index && t !in swept.pending;
    } else {
      SweepStaysExact(tier, keys, cutoff);
    }
  }

  lemma ScanListed(tier: Tier, keys: seq<TimeoutKey>, cutoff: int)
    requires Exact(tier) && IsScan(keys, tier.index, cutoff)
    ensures Listed(tier.pending, keys)
    ensures forall i :: 0 <= i < |keys| ==> keys[i].0 == tier.pending[keys[i].1].submittedAt
  {
    forall i | 0 <= i < |keys| ensures (keys[i].0, keys[i].1) in tier.index { assert keys[i] in keys; }
  }

  lemma SweepStaysExact(tier: Tier, keys: seq<TimeoutKey>, cutoff: int)
    requires Exact(tier) && IsScan(keys, tier.index, cutoff)
    requires Unreadable(keys) ==> keys[|keys| - 1].1 == []
    ensures Exact(Swept(tier, Collect(tier.pending, keys), keys))
  {
    ScanListed(tier, keys, cutoff);
    CollectCount(tier.pending, keys);
    var apts := Collect(tier.pending, keys);
    var swept := Swept(tier, apts, keys);
    forall h, t ensures (h, t) in swept.index <==> t in swept.pending && swept.pending[t].submittedAt == h {
      if (h, t) in tier.index {
        assert (h, t) in keys <==> h <= cutoff;
        if (h, t) in keys {
          var i :| 0 <= i < |keys| && keys[i] == (h, t);
          assert t in TasksOf(apts) <==> t != [];
          assert i < |apts| <==> t != [];
          assert i < |apts| ==> keys[i] in Taken(keys, |apts|);
        }
      }
    }
  }

  // ---------- A run ----------

  const NONE: TaskId := []
  const SOME: TaskId := [1]

  /** An ordinary successful row; the batch accepts it with or without an id. */
  function Row(t: TaskId): EntryInput {
    EntryInput(Entry(t, Bech32(1), Bech32(2), [], Coin(Ufai, 1), SUCCESS, 0,
                     [1], [1], [[1], [1], [1]], 0, 0, Coin(Ufai, 0), 0, 0), true, {})
  }

  const DEPOSIT := DepositStep(1, Coin(Ufai, 2), false)
  const WAIT := EndBlockStep([], [], {})
  const SWEEP := EndBlockStep([(1, NONE), (1, SOME)], [], {})
  function Batch(): Step { SettleStep(true, [Row(NONE), Row(SOME)]) }

  /** No record is ever cleaned up, nothing is reserved or marked, and the third tier is empty. */
  ghost predicate Plain(s: State) {
    && 1 in s.accounts && s.reserved == map[] && s.fraud == {} && s.third == Tier(map[], {})
    && forall t :: t in s.settled ==> s.settled[t].expire == 0
  }

  /** Both rows await their audit. */
  ghost predicate BothWait(s: State) {
    s.second == Tier(map[NONE := PendingOf(Row(NONE).entry, 1), SOME := PendingOf(Row(SOME).entry, 1)],
                     {(1, NONE), (1, SOME)})
  }

  lemma RowAudited(s: State, t: TaskId, p: Params)
    requires Plain(s) && t !in s.settled
    ensures SettleEntry(s, Row(t), p) == Go(OpenAudit(s, Row(t).entry))
  {
    assert SignaturesPresent(Row(t).entry) && !IsPerToken(Row(t).entry);
  }

  lemma Batched(s: State, p: Params)
    requires Plain(s) && s.height == 1 && s.settled == map[] && s.second == Tier(map[], {})
    ensures var s2 := Apply(s, Batch(), p); Plain(s2) && s2.height == 1 && BothWait(s2)
  {
    var s1 := OpenAudit(s, Row(NONE).entry);
    var s2 := OpenAudit(s1, Row(SOME).entry);
    RowAudited(s, NONE, p);
    RowAudited(s1, SOME, p);
    var xs := [Row(NONE), Row(SOME)];
    assert xs[1..] == [Row(SOME)] && xs[1..][1..] == [];
    assert SettleAll(s1, xs[1..], p) == Go(s2);
    assert s2.second.index == {(1, NONE), (1, SOME)};
  }

  lemma Waited(s: State)
    requires Plain(s) && s.height == 1 && BothWait(s)
    ensures var s2 := Apply(s, WAIT, Uncovered.Quick());
            Enabled(s, WAIT, Uncovered.Quick()) && Plain(s2) && s2.height == 2 && BothWait(s2)
  {
  }

  /** The scan reads only the second key, and pairs its entry with the first. */
  lemma Paired(s: State)
    requires BothWait(s)
    ensures Collect(s.second.pending, [(1, NONE), (1, SOME)]) == [PendingOf(Row(SOME).entry, 1)]
  {
    var keys: seq<TimeoutKey> := [(1, NONE), (1, SOME)];
    assert keys[1..] == [(1, SOME)] && keys[1..][1..] == [];
    assert Collect(s.second.pending, keys[1..]) == [PendingOf(Row(SOME).entry, 1)];
  }

  lemma OneSwept(s: State, apt: Pending, keys: seq<TimeoutKey>, s2: State, p: Params)
    requires keys != [] && Finish(s, apt, keys[0], false, {}, p) == Go(s2)
    ensures Sweep(s, [apt], keys, false, {}, p) == Go(s2)
  {
    assert [apt][1..] == [] && Sweep(s2, [], keys[1..], false, {}, p) == Go(s2);
  }

  lemma Closed(s: State, settled: bool, apt: Pending)
    requires BothWait(s) && apt.task == SOME
    ensures var s2 := CloseOut(s, settled, apt, (1, NONE), false);
            && s2.height == s.height && s2.third == s.third
            && s2.second.pending.Keys == {NONE} && s2.second.index == {(1, SOME)}
  {
  }

  lemma Finished(s: State, apt: Pending, p: Params)
    requires Plain(s) && BothWait(s) && apt == PendingOf(Row(SOME).entry, 1)
    ensures var f := Finish(s, apt, (1, NONE), false, {}, p);
            && f.Go? && f.state.height == s.height && f.state.third == s.third
            && f.state.second.pending.Keys == {NONE} && f.state.second.index == {(1, SOME)}
  {
    var v := SettleAudited(s, apt, TimeoutSuccess(s, apt, false, p), 0, {}, p);
    SettleAuditedEffect(s, apt, TimeoutSuccess(s, apt, false, p), 0, {}, p);
    Closed(v.state, v.settled, apt);
  }

  lemma Mispaired(s: State, apt: Pending, p: Params)
    requires Plain(s) && BothWait(s) && apt == PendingOf(Row(SOME).entry, 1)
    ensures var f := Sweep(s, [apt], [(1, NONE), (1, SOME)], false, {}, p);
            && f.Go? && f.state.height == s.height && f.state.third == s.third
            && f.state.second.pending.Keys == {NONE} && f.state.second.index == {(1, SOME)}
  {
    var keys: seq<TimeoutKey> := [(1, NONE), (1, SOME)];
    Finished(s, apt, p);
    OneSwept(s, apt, keys, Finish(s, apt, keys[0], false, {}, p).state, p);
  }

  lemma SweptWrong(s: State)
    requires Plain(s) && s.height == 2 && BothWait(s)
    ensures var s2 := Apply(s, SWEEP, Uncovered.Quick());
            Enabled(s, SWEEP, Uncovered.Quick()) && s2.second.pending.Keys == {NONE} && s2.second.index == {(1, SOME)}
  {
    var s0 := Cleanup(s, Uncovered.Quick());
    SecondSwept(s0);
    NothingSwept(Timeouts(s0, SWEEP.scan2, false, {}, Uncovered.Quick()).state, true, Uncovered.Quick());
    Scanned(s);
  }

  lemma SecondSwept(s: State)
    requires Plain(s) && s.height == 2 && BothWait(s)
    ensures var f := Timeouts(s, SWEEP.scan2, false, {}, Uncovered.Quick());
            f.Go? && f.state.second.pending.Keys == {NONE} && f.state.second.index == {(1, SOME)}
  {
    Paired(s);
    Mispaired(s, PendingOf(Row(SOME).entry, 1), Uncovered.Quick());
  }

  lemma Scanned(s: State)
    requires s.third == Tier(map[], {}) && BothWait(s)
    ensures IsScan(SWEEP.scan2, s.second.index, 1) && IsScan([], s.third.index, 1)
  {
  }

  /** Concretely, from genesis: two rows, one without an id, are sent to audit and time out in the same block.
      The entry with an id is settled and the key of the other one deleted: a key is left without an
      entry, and an entry without a key. */
  lemma StaleKey(bank: Bank)
    requires bank == Bank(0, map[1 := 2])
    ensures var g, steps := Genesis(bank), [DEPOSIT] + ([Batch()] + ([WAIT] + [SWEEP]));
            var s := Run(g, steps, Uncovered.Quick());
            && IsRun(g, steps, Uncovered.Quick()) && !Exact(s.second)
            && s.second.pending.Keys == {NONE} && s.second.index == {(1, SOME)}
  {
    var g, p := Genesis(bank), Uncovered.Quick();
    var s1 := Apply(g, DEPOSIT, p);
    var s2 := Apply(s1, Batch(), p);
    var s3 := Apply(s2, WAIT, p);
    Batched(s1, p);
    Waited(s2);
    SweptWrong(s3);
    RunOne(s3, SWEEP, p);
    RunCons(s2, WAIT, [SWEEP], p);
    RunCons(s1, Batch(), [WAIT] + [SWEEP], p);
    RunCons(g, DEPOSIT, [Batch()] + ([WAIT] + [SWEEP]), p);
  }
}
