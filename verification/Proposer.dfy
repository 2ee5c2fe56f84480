/** The Proposer's queues (p2p/proposer/proposer.go) and the dispatch ticks that drain them
    (p2p/dispatch.go:658-742): build a batch, broadcast it, and drop it from the queue only on success. */
module Proposer {
  import opened Sums
  import opened Ledger

  const MIN_BATCH_LIMIT: nat := 64
  const MAX_BATCH_ENTRIES: nat := 1300
  const MAX_AUDIT_ENTRIES: nat := 256
  const TASK_TIMEOUT_MS: nat := 300_000
  const MIN_VERIFIERS_FOR_PARTIAL_SETTLE: nat := 2

  type PubKey = seq<byte>
  datatype Vote = Vote(verifier: PubKey, pass: bool)
  datatype Evidence = Evidence(hasReceipt: bool, receivedAt: nat, votes: seq<Vote>)
  datatype Cleared = Cleared(task: TaskId, status: nat, votes: seq<Vote>)
  datatype Ready = Ready(task: TaskId, epoch: int, responses: seq<Vote>)
  datatype AuditEntry = AuditEntry(task: TaskId, epoch: int, response: Vote)
  datatype Outcome = Accepted | TooLarge | Failed

  ghost predicate DistinctVoters(vs: seq<Vote>) {
    forall i, j :: 0 <= i < j < |vs| ==> vs[i].verifier != vs[j].verifier
  }

  // ---------- The settlement queue, as the ticks see it ----------

  function Limit(override: nat): nat { if override > 0 then override else MAX_BATCH_ENTRIES }

  function Shrunk(limit: nat): nat { if limit / 2 < MIN_BATCH_LIMIT then MIN_BATCH_LIMIT else limit / 2 }

  function Built(queue: seq<Cleared>, override: nat): seq<Cleared> { queue[..Min(|queue|, Limit(override))] }

  /** One tick: tasks are cleared, a batch is built and broadcast, and committed if the chain took it. */
  datatype Tick = Tick(cleared: seq<Cleared>, outcome: Outcome)
  datatype Line = Line(queue: seq<Cleared>, override: nat, sent: seq<Cleared>)

  function After(l: Line, t: Tick): Line {
    var queue := l.queue + t.cleared;
    if queue == [] then l.(queue := queue) else
      match t.outcome
      case Failed => l.(queue := queue)
      case TooLarge => l.(queue := queue, override := Shrunk(Limit(l.override)))
      case Accepted => Line(queue[Min(|queue|, Limit(l.override))..], l.override, l.sent + Built(queue, l.override))
  }

  function AfterAll(l: Line, ts: seq<Tick>): Line
    decreases |ts|
  {
    if ts == [] then l else AfterAll(After(l, ts[0]), ts[1..])
  }

  function ClearedIn(ts: seq<Tick>): seq<Cleared> {
    if ts == [] then [] else ts[0].cleared + ClearedIn(ts[1..])
  }

  lemma Regroup<T>(a: seq<T>, b: seq<T>, c: seq<T>)
    ensures a + b + c == a + (b + c)
  {
  }

  lemma TickLosesNothing(l: Line, t: Tick)
    ensures var m := After(l, t); m.sent + m.queue == l.sent + (l.queue + t.cleared)
  {
    var queue := l.queue + t.cleared;
    var n := Min(|queue|, Limit(l.override));
    assert queue[..n] + queue[n..] == queue;
    Regroup(l.sent, queue[..n], queue[n..]);
  }

  /** Nothing is lost, repeated or reordered: what was sent, followed by what is queued, is what was
      cleared, over any run of accepted, failed and oversized broadcasts. */
  lemma {:induction false} QueueLosesNothing(l: Line, ts: seq<Tick>)
    ensures var m := AfterAll(l, ts); m.sent + m.queue == l.sent + (l.queue + ClearedIn(ts))
    decreases |ts|
  {
    if ts == [] {
      assert l.queue + [] == l.queue;
    } else {
      var m, rest := After(l, ts[0]), ClearedIn(ts[1..]);
      TickLosesNothing(l, ts[0]);
      QueueLosesNothing(m, ts[1..]);
      Regroup(m.sent, m.queue, rest);
      Regroup(l.sent, l.queue + ts[0].cleared, rest);
      Regroup(l.queue, ts[0].cleared, rest);
    }
  }

  // ---------- The shrinking limit ----------

  function Shrinks(limit: nat, k: nat): nat
    decreases k
  {
    if k == 0 then limit else Shrinks(Shrunk(limit), k - 1)
  }

  /** Halving k times brings any limit up to 64 * 2^k down to 64, where it stays; it never goes below. */
  lemma {:induction false} ShrinkingSettles(limit: nat, k: nat)
    requires limit >= MIN_BATCH_LIMIT
    ensures MIN_BATCH_LIMIT <= Shrinks(limit, k) <= limit
    ensures limit <= MIN_BATCH_LIMIT * Pow2(k) ==> Shrinks(limit, k) == MIN_BATCH_LIMIT
    decreases k
  {
    if k > 0 { ShrinkingSettles(Shrunk(limit), k - 1); }
  }

  /** From the default limit five oversized batches are enough. */
  lemma FiveShrinksSuffice(k: nat)
    requires k >= 5
    ensures Shrinks(MAX_BATCH_ENTRIES, k) == MIN_BATCH_LIMIT
  {
    PowGrows(k);
    ShrinkingSettles(MAX_BATCH_ENTRIES, k);
  }

  lemma {:induction false} PowGrows(k: nat)
    requires k >= 5
    ensures Pow2(k) >= 32
  {
    if k > 5 { PowGrows(k - 1); } else { assert Pow2(2) == 4; assert Pow2(4) == 16; }
  }

  // ---------- What CommitBatch relies on ----------

  /** CommitBatch looks at the queue and limit of its own moment. With entries cleared since the build
      and a limit changed since, it drops exactly what was built if and only if the counts agree. */
  lemma CommitDropsWhatWasBuilt(queue: seq<Cleared>, since: seq<Cleared>, built: nat, committed: nat)
    ensures var now := queue + since;
            now[..Min(|now|, Limit(committed))] == queue[..Min(|queue|, Limit(built))] <==>
            Min(|queue| + |since|, Limit(committed)) == Min(|queue|, Limit(built))
    ensures built == committed ==>
              (Min(|queue| + |since|, Limit(committed)) == Min(|queue|, Limit(built)) <==>
               since == [] || |queue| >= Limit(built))
  {
    var now := queue + since;
    var n, m := Min(|now|, Limit(committed)), Min(|queue|, Limit(built));
    if n == m { assert now[..n] == queue[..m]; } else { assert |now[..n]| != |queue[..m]|; }
  }

  // ---------- The audit queue ----------

  /** How many ready audits fit into `room` entries. */
  function Fit(ready: seq<Ready>, room: nat): (n: nat)
    ensures n <= |ready|
  {
    if ready == [] || |ready[0].responses| > room then 0
    else 1 + Fit(ready[1..], room - |ready[0].responses|)
  }

  function EntriesOf(r: Ready): seq<AuditEntry> {
    seq(|r.responses|, i requires 0 <= i < |r.responses| => AuditEntry(r.task, r.epoch, r.responses[i]))
  }

  function Flatten(ready: seq<Ready>): seq<AuditEntry> {
    if ready == [] then [] else EntriesOf(ready[0]) + Flatten(ready[1..])
  }

  /** One submission. Audits may become ready between build and broadcast (`early`) and between
      broadcast and commit (`late`). */
  datatype Submit = Submit(early: seq<Ready>, late: seq<Ready>, ok: bool)
  datatype AuditLine = AuditLine(ready: seq<Ready>, sent: seq<Ready>)

  function Submitted(l: AuditLine, s: Submit): AuditLine {
    var n := Fit(l.ready, MAX_AUDIT_ENTRIES);
    var ready := l.ready + s.early + s.late;
    if s.ok then AuditLine(ready[n..], l.sent + l.ready[..n]) else l.(ready := ready)
  }

  function SubmittedAll(l: AuditLine, ss: seq<Submit>): AuditLine
    decreases |ss|
  {
    if ss == [] then l else SubmittedAll(Submitted(l, ss[0]), ss[1..])
  }

  function ArrivedIn(ss: seq<Submit>): seq<Ready> {
    if ss == [] then [] else ss[0].early + ss[0].late + ArrivedIn(ss[1..])
  }

  lemma SubmitLosesNothing(l: AuditLine, s: Submit)
    ensures var m := Submitted(l, s); m.sent + m.ready == l.sent + (l.ready + (s.early + s.late))
  {
    var n := Fit(l.ready, MAX_AUDIT_ENTRIES);
    var ready := l.ready + s.early + s.late;
    Regroup(l.ready, s.early, s.late);
    assert ready[..n] == l.ready[..n] && ready[..n] + ready[n..] == ready;
    Regroup(l.sent, ready[..n], ready[n..]);
  }

  /** The audit queue too loses and repeats nothing, even with audits arriving in the middle. */
  lemma {:induction false} AuditQueueLosesNothing(l: AuditLine, ss: seq<Submit>)
    ensures var m := SubmittedAll(l, ss); m.sent + m.ready == l.sent + (l.ready + ArrivedIn(ss))
    decreases |ss|
  {
    if ss == [] {
      assert l.ready + [] == l.ready;
    } else {
      var m, arrived, rest := Submitted(l, ss[0]), ss[0].early + ss[0].late, ArrivedIn(ss[1..]);
      SubmitLosesNothing(l, ss[0]);
      AuditQueueLosesNothing(m, ss[1..]);
      Regroup(m.sent, m.ready, rest);
      Regroup(l.sent, l.ready + arrived, rest);
      Regroup(l.ready, arrived, rest);
    }
  }

  ghost predicate ThreeEach(ready: seq<Ready>) {
    forall i :: 0 <= i < |ready| ==> |ready[i].responses| == 3 && DistinctVoters(ready[i].responses)
  }

  /** With three responses each, a batch holds up to 85 audits, and never stalls. */
  lemma {:induction false} FitOfThrees(ready: seq<Ready>, room: nat)
    requires ThreeEach(ready)
    ensures Fit(ready, room) == Min(|ready|, room / 3)
  {
    if ready != [] && room >= 3 { FitOfThrees(ready[1..], room - 3); }
  }

  /** The audits before, at and after a position. */
  lemma OneAuditMore(ready: seq<Ready>, i: nat)
    requires i < |ready|
    ensures ready[i..][0] == ready[i] && ready[i..][1..] == ready[i + 1..]
    ensures Flatten(ready[..i + 1]) == Flatten(ready[..i]) + EntriesOf(ready[i])
  {
    assert ready[..i + 1] == ready[..i] + [ready[i]];
    FlattenSnoc(ready[..i], ready[i]);
  }

  // ---------- When a pending task is done ----------

  predicate TimedOut(ev: Evidence, now: nat) { now - ev.receivedAt >= TASK_TIMEOUT_MS }

  /** Three votes, or two once the task has timed out. */
  predicate Settleable(ev: Evidence, now: nat) {
    ev.hasReceipt && (|ev.votes| >= 3 || (TimedOut(ev, now) && |ev.votes| >= MIN_VERIFIERS_FOR_PARTIAL_SETTLE))
  }

  /** Timed out with fewer than two votes. */
  predicate Expires(ev: Evidence, now: nat) {
    ev.hasReceipt && TimedOut(ev, now) && |ev.votes| < MIN_VERIFIERS_FOR_PARTIAL_SETTLE
  }

  /** The four ways a pending task can go. */
  datatype Door = Stay | Expire | Audit | Clear

  function DoorOf(ev: Evidence, now: nat, audit: bool): Door {
    if Settleable(ev, now) then (if audit then Audit else Clear)
    else if Expires(ev, now) then Expire else Stay
  }

  function Through(pool: map<TaskId, Evidence>, now: nat, audited: set<TaskId>, seen: set<TaskId>,
                   d: Door): set<TaskId> {
    set t | t in seen && t in pool && DoorOf(pool[t], now, t in audited) == d
  }

  lemma ThroughOneMore(pool: map<TaskId, Evidence>, now: nat, audited: set<TaskId>, seen: set<TaskId>, t: TaskId,
                       d: Door)
    requires t in pool
    ensures Through(pool, now, audited, seen + {t}, d) ==
            Through(pool, now, audited, seen, d) + if DoorOf(pool[t], now, t in audited) == d then {t} else {}
  {
  }

  predicate AllPass(vs: seq<Vote>) { forall i :: 0 <= i < |vs| ==> vs[i].pass }

  function ClearedEntry(t: TaskId, ev: Evidence): Cleared {
    Cleared(t, if AllPass(ev.votes) then SUCCESS else FAIL, ev.votes)
  }

  /** `news` holds the entry of each settled task once, and nothing else. */
  ghost predicate ClearsExactly(news: seq<Cleared>, pool: map<TaskId, Evidence>, settled: set<TaskId>) {
    && settled <= pool.Keys
    && (forall i :: 0 <= i < |news| ==>
          news[i].task in settled && news[i] == ClearedEntry(news[i].task, pool[news[i].task]))
    && (forall t :: t in settled ==> exists i :: 0 <= i < |news| && news[i].task == t)
    && (forall i, j :: 0 <= i < j < |news| ==> news[i].task != news[j].task)
  }

  lemma ClearsOneMore(news: seq<Cleared>, pool: map<TaskId, Evidence>, settled: set<TaskId>, t: TaskId)
    requires ClearsExactly(news, pool, settled) && t in pool && t !in settled
    ensures ClearsExactly(news + [ClearedEntry(t, pool[t])], pool, settled + {t})
  {
    var more := news + [ClearedEntry(t, pool[t])];
    forall u | u in settled + {t} ensures exists i :: 0 <= i < |more| && more[i].task == u {
      if u == t {
        assert more[|news|].task == u;
      } else {
        var i :| 0 <= i < |news| && news[i].task == u;
        assert more[i].task == u;
      }
    }
  }

  /** The three collections ProcessPending works on. */
  datatype Desk = Desk(tasks: map<TaskId, Evidence>, audits: map<TaskId, seq<Vote>>, cleared: seq<Cleared>)

  /** Take one pending task through its door. */
  function Handled(d: Desk, t: TaskId, now: nat, audit: bool): Desk
    requires t in d.tasks
  {
    match DoorOf(d.tasks[t], now, audit)
    case Stay => d
    case Expire => d.(tasks := d.tasks - {t})
    case Audit => d.(tasks := d.tasks - {t}, audits := d.audits[t := []])
    case Clear => d.(tasks := d.tasks - {t}, cleared := d.cleared + [ClearedEntry(t, d.tasks[t])])
  }

  /** What has become of the desk once the tasks in `seen` were handled: the done ones are cleared (as
      `news`), sent to audit or gone, each once, and all others are still there unchanged. */
  ghost predicate Sorted(d0: Desk, d: Desk, now: nat, audited: set<TaskId>, seen: set<TaskId>, news: seq<Cleared>) {
    && d.cleared == d0.cleared + news
    && ClearsExactly(news, d0.tasks, Through(d0.tasks, now, audited, seen, Clear))
    && d.tasks == d0.tasks - (seen - Through(d0.tasks, now, audited, seen, Stay))
    && d.audits.Keys == d0.audits.Keys + Through(d0.tasks, now, audited, seen, Audit)
    && (forall t :: t in d.audits ==> d.audits[t] == [] || (t in d0.audits && d.audits[t] == d0.audits[t]))
  }

  lemma NothingSeen(d: Desk, now: nat, audited: set<TaskId>)
    ensures Sorted(d, d, now, audited, {}, [])
  {
    assert Through(d.tasks, now, audited, {}, Clear) == {};
    assert d.tasks == d.tasks - ({} - Through(d.tasks, now, audited, {}, Stay));
  }

  /** Votes and responses are from distinct verifiers, and not too many. */
  ghost predicate Tidy(d: Desk) {
    && (forall t :: t in d.tasks ==> |d.tasks[t].votes| <= 3 && DistinctVoters(d.tasks[t].votes))
    && (forall t :: t in d.audits ==> |d.audits[t]| < 3 && DistinctVoters(d.audits[t]))
  }

  lemma SortedStaysTidy(d0: Desk, d: Desk, now: nat, audited: set<TaskId>, seen: set<TaskId>, news: seq<Cleared>)
    requires Sorted(d0, d, now, audited, seen, news) && Tidy(d0)
    ensures Tidy(d)
  {
  }

  lemma SortedOneMore(d0: Desk, d: Desk, now: nat, audited: set<TaskId>, seen: set<TaskId>, news: seq<Cleared>,
                      t: TaskId)
    requires Sorted(d0, d, now, audited, seen, news) && t in d0.tasks && t !in seen
    ensures t in d.tasks && d.tasks[t] == d0.tasks[t]
    ensures var more := if DoorOf(d0.tasks[t], now, t in audited) == Clear
                        then news + [ClearedEntry(t, d0.tasks[t])] else news;
            Sorted(d0, Handled(d, t, now, t in audited), now, audited, seen + {t}, more)
  {
    var door, pool := DoorOf(d0.tasks[t], now, t in audited), d0.tasks;
    ThroughOneMore(pool, now, audited, seen, t, Stay);
    ThroughOneMore(pool, now, audited, seen, t, Audit);
    ThroughOneMore(pool, now, audited, seen, t, Clear);
    var cleared := Through(pool, now, audited, seen, Clear);
    if door == Clear {
      ClearsOneMore(news, pool, cleared, t);
      assert d0.cleared + news + [ClearedEntry(t, pool[t])] == d0.cleared + (news + [ClearedEntry(t, pool[t])]);
    }
    var gone := seen - Through(pool, now, audited, seen, Stay);
    var goneNow := seen + {t} - Through(pool, now, audited, seen + {t}, Stay);
    assert goneNow == if door == Stay then gone else gone + {t};
    assert d.tasks - {t} == d0.tasks - (gone + {t});
  }

  /** Three votes, or two after five minutes. */
  ghost predicate Finished(ev: Evidence, now: nat) {
    ev.hasReceipt && (|ev.votes| >= 3 || (|ev.votes| >= 2 && now >= ev.receivedAt + 300_000))
  }

  /** Fewer than two votes after five minutes. */
  ghost predicate GivenUp(ev: Evidence, now: nat) {
    ev.hasReceipt && |ev.votes| < 2 && now >= ev.receivedAt + 300_000
  }

  /** By votes and time: a finished task is cleared, as a success if and only if every vote is for it, or sent to
      audit; a task given up is dropped; every other task stays. */
  lemma DoneByVotes(d0: Desk, d: Desk, now: nat, audited: set<TaskId>, news: seq<Cleared>, t: TaskId)
    requires Sorted(d0, d, now, audited, d0.tasks.Keys, news) && t in d0.tasks
    ensures var ev := d0.tasks[t];
            && (t in d.tasks <==> !Finished(ev, now) && !GivenUp(ev, now)) && (t in d.tasks ==> d.tasks[t] == ev)
            && ((exists c :: c in news && c.task == t) <==> Finished(ev, now) && t !in audited)
            && (forall c :: c in news && c.task == t ==>
                  c.votes == ev.votes && c.status == if (forall v :: v in ev.votes ==> v.pass) then SUCCESS else FAIL)
            && (Finished(ev, now) && t in audited ==> t in d.audits)
            && (t in d.audits ==> t in d0.audits || (Finished(ev, now) && t in audited))
  {
    var ev := d0.tasks[t];
    assert AllPass(ev.votes) <==> forall v :: v in ev.votes ==> v.pass;
    var cleared := Through(d0.tasks, now, audited, d0.tasks.Keys, Clear);
    assert t in cleared <==> Finished(ev, now) && t !in audited;
    if t in cleared {
      var i :| 0 <= i < |news| && news[i].task == t;
      assert news[i] in news;
    }
    forall c | c in news && c.task == t ensures t in cleared && c == ClearedEntry(t, ev) {
      var i :| 0 <= i < |news| && news[i] == c;
    }
  }

  // ---------- The Proposer ----------

  class Proposer {
    var hasAddress: bool
    var pendingTasks: map<TaskId, Evidence>
    var pendingAudits: map<TaskId, seq<Vote>>
    var clearedTasks: seq<Cleared>
    var readyAudits: seq<Ready>
    var auditBatchInFlight: nat
    var batchLimitOverride: nat
    var currentEpoch: int

    ghost function Current(): Desk
      reads this
    {
      Desk(pendingTasks, pendingAudits, clearedTasks)
    }

    /** Votes and responses come from distinct verifiers; a ready audit has three of them; the limit
        is the default or at least the minimum. */
    ghost predicate Valid()
      reads this
    {
      && Tidy(Current()) && ThreeEach(readyAudits)
      && Limit(batchLimitOverride) >= MIN_BATCH_LIMIT
    }

    constructor (hasAddress: bool)
      ensures Valid() && pendingTasks == map[] && pendingAudits == map[] && clearedTasks == [] && readyAudits == []
      ensures this.hasAddress == hasAddress && Limit(batchLimitOverride) == MAX_BATCH_ENTRIES
    {
      this.hasAddress := hasAddress;
      pendingTasks, pendingAudits, clearedTasks, readyAudits := map[], map[], [], [];
      auditBatchInFlight, batchLimitOverride, currentEpoch := 0, 0, 0;
    }

    /** A vote counts once per verifier and task, up to three; `sound` stands for the signature check
        and the VRF ranking. */
    method AddVerifyResult(t: TaskId, vote: Vote, sound: bool) returns (ok: bool)
      requires Valid()
      modifies this`pendingTasks
      ensures Valid()
      ensures ok <==> sound && t in old(pendingTasks)
                      && forall v :: v in old(pendingTasks)[t].votes ==> v.verifier != vote.verifier
      ensures pendingTasks == if ok && |old(pendingTasks)[t].votes| < 3
                              then var was := old(pendingTasks)[t];
                                   old(pendingTasks)[t := was.(votes := was.votes + [vote])]
                              else old(pendingTasks)
    {
      if t !in pendingTasks || !sound { return false; }
      var ev := pendingTasks[t];
      for i := 0 to |ev.votes|
        invariant forall k :: 0 <= k < i ==> ev.votes[k].verifier != vote.verifier
      {
        if ev.votes[i].verifier == vote.verifier { return false; }
      }
      if |ev.votes| < 3 {
        pendingTasks := pendingTasks[t := ev.(votes := ev.votes + [vote])];
      }
      return true;
    }

    method Status(votes: seq<Vote>) returns (status: nat)
      ensures status == if AllPass(votes) then SUCCESS else FAIL
    {
      var allPass := true;
      for i := 0 to |votes|
        invariant allPass && forall k :: 0 <= k < i ==> votes[k].pass
      {
        if !votes[i].pass { allPass := false; break; }
      }
      return if allPass then SUCCESS else FAIL;
    }

    method Decide(ev: Evidence, now: nat, audit: bool) returns (door: Door)
      ensures door == DoorOf(ev, now, audit)
    {
      if !ev.hasReceipt { return Stay; }
      if |ev.votes| < 3 {
        if now - ev.receivedAt < TASK_TIMEOUT_MS { return Stay; }
        if |ev.votes| < MIN_VERIFIERS_FOR_PARTIAL_SETTLE { return Expire; }
      }
      return if audit then Audit else Clear;
    }

    method Handle(t: TaskId, now: nat, audit: bool)
      requires t in pendingTasks
      modifies this`pendingTasks, this`pendingAudits, this`clearedTasks
      ensures Current() == Handled(old(Current()), t, now, audit)
    {
      var ev := pendingTasks[t];
      var door := Decide(ev, now, audit);
      if door == Clear {
        var status := Status(ev.votes);
        clearedTasks := clearedTasks + [Cleared(t, status, ev.votes)];
      } else if door == Audit {
        pendingAudits := pendingAudits[t := []];
      }
      if door != Stay { pendingTasks := pendingTasks - {t}; }
    }

    /** Every pending task that is done leaves the pool by exactly one door: to the batch queue, to audit
        (for the tasks in `audited`), or out. All others stay. */
    method ProcessPending(now: nat, audited: set<TaskId>) returns (ghost news: seq<Cleared>)
      requires Valid()
      modifies this`pendingTasks, this`pendingAudits, this`clearedTasks
      ensures Valid() && Sorted(old(Current()), Current(), now, audited, old(pendingTasks).Keys, news)
    {
      ghost var d0 := Current();
      var unseen := pendingTasks.Keys;
      news := [];
      assert d0.tasks.Keys - unseen == {};
      NothingSeen(d0, now, audited);
      while unseen != {}
        invariant unseen <= d0.tasks.Keys
        invariant Sorted(d0, Current(), now, audited, d0.tasks.Keys - unseen, news)
        decreases |unseen|
      {
        var t :| t in unseen;
        SortedOneMore(d0, Current(), now, audited, d0.tasks.Keys - unseen, news, t);
        news := if DoorOf(d0.tasks[t], now, t in audited) == Clear then news + [ClearedEntry(t, d0.tasks[t])] else news;
        Handle(t, now, t in audited);
        assert d0.tasks.Keys - unseen + {t} == d0.tasks.Keys - (unseen - {t});
        unseen := unseen - {t};
      }
      assert d0.tasks.Keys - {} == d0.tasks.Keys;
      SortedStaysTidy(d0, Current(), now, audited, d0.tasks.Keys, news);
    }

    // ---------- Settlement batches ----------

    method SetBatchLimit(n: int)
      requires Valid()
      modifies this`batchLimitOverride
      ensures Valid()
      ensures Limit(batchLimitOverride) ==
              if n <= 0 then MAX_BATCH_ENTRIES else if n < MIN_BATCH_LIMIT then MIN_BATCH_LIMIT else n
    {
      if n <= 0 {
        batchLimitOverride := 0;
      } else {
        batchLimitOverride := if n < MIN_BATCH_LIMIT then MIN_BATCH_LIMIT else n;
      }
    }

    method ShrinkBatchLimit() returns (limit: nat)
      requires Valid()
      modifies this`batchLimitOverride
      ensures Valid() && limit == batchLimitOverride == Shrunk(Limit(old(batchLimitOverride)))
    {
      var next := Limit(batchLimitOverride) / 2;
      if next < MIN_BATCH_LIMIT { next := MIN_BATCH_LIMIT; }
      batchLimitOverride := next;
      return next;
    }

    /** A copy of the head of the queue; the queue itself is left alone. */
    method BuildBatch() returns (entries: seq<Cleared>)
      requires Valid()
      ensures entries == Built(clearedTasks, batchLimitOverride)
      ensures entries == [] <==> clearedTasks == []
    {
      if |clearedTasks| == 0 { return []; }
      var batchSize := |clearedTasks|;
      if batchSize > Limit(batchLimitOverride) { batchSize := Limit(batchLimitOverride); }
      return clearedTasks[..batchSize];
    }

    method CommitBatch()
      modifies this`clearedTasks
      ensures clearedTasks == old(clearedTasks)[Min(|old(clearedTasks)|, Limit(batchLimitOverride))..]
    {
      var limit := Limit(batchLimitOverride);
      clearedTasks := if |clearedTasks| <= limit then [] else clearedTasks[limit..];
    }

    // ---------- Audits ----------

    /** A response counts once per verifier; the third one makes the audit ready. Later responses for
        the same task start a new round. */
    method CollectSecondVerificationResponse(t: TaskId, r: Vote) returns (complete: bool)
      requires Valid()
      modifies this`pendingAudits, this`readyAudits
      ensures Valid()
      ensures var was := if t in old(pendingAudits) then old(pendingAudits)[t] else [];
              if exists v :: v in was && v.verifier == r.verifier then
                !complete && pendingAudits == old(pendingAudits)[t := was] && readyAudits == old(readyAudits)
              else if |was| == 2 then
                && complete && pendingAudits == old(pendingAudits) - {t}
                && readyAudits == old(readyAudits) + [Ready(t, currentEpoch, was + [r])]
              else
                !complete && pendingAudits == old(pendingAudits)[t := was + [r]] && readyAudits == old(readyAudits)
    {
      if t !in pendingAudits { pendingAudits := pendingAudits[t := []]; }
      var was := pendingAudits[t];
      for i := 0 to |was|
        invariant forall k :: 0 <= k < i ==> was[k].verifier != r.verifier
      {
        if was[i].verifier == r.verifier { return false; }
      }
      var responses := was + [r];
      if |responses| >= 3 {
        readyAudits := readyAudits + [Ready(t, currentEpoch, responses)];
        pendingAudits := pendingAudits - {t};
        return true;
      }
      pendingAudits := pendingAudits[t := responses];
      return false;
    }

    /** The longest prefix of the ready audits that fits; remembers how many audits that is. */
    method BuildAuditBatch() returns (entries: seq<AuditEntry>)
      requires Valid()
      modifies this`auditBatchInFlight
      ensures hasAddress ==> entries == Flatten(readyAudits[..Fit(readyAudits, MAX_AUDIT_ENTRIES)])
      ensures entries == [] <==> readyAudits == [] || !hasAddress
      ensures entries != [] ==> auditBatchInFlight == Fit(readyAudits, MAX_AUDIT_ENTRIES)
      ensures |entries| <= MAX_AUDIT_ENTRIES
    {
      if |readyAudits| == 0 || !hasAddress { return []; }
      entries := [];
      var consumed := 0;
      while consumed < |readyAudits|
        invariant consumed <= |readyAudits| && |entries| == 3 * consumed <= MAX_AUDIT_ENTRIES
        invariant entries == Flatten(readyAudits[..consumed])
        invariant Fit(readyAudits, MAX_AUDIT_ENTRIES) ==
                  consumed + Fit(readyAudits[consumed..], MAX_AUDIT_ENTRIES - |entries|)
      {
        var ra := readyAudits[consumed];
        OneAuditMore(readyAudits, consumed);
        if |entries| + |ra.responses| > MAX_AUDIT_ENTRIES { break; }
        entries := entries + EntriesOf(ra);
        consumed := consumed + 1;
      }
      FitOfThrees(readyAudits, MAX_AUDIT_ENTRIES);
      if |entries| == 0 { return; }
      auditBatchInFlight := consumed;
    }

    method CommitAuditBatch()
      modifies this`readyAudits, this`auditBatchInFlight
      ensures readyAudits == if old(auditBatchInFlight) <= |old(readyAudits)|
                             then old(readyAudits)[old(auditBatchInFlight)..]
                             else old(readyAudits)
      ensures auditBatchInFlight == 0
    {
      var n := auditBatchInFlight;
      if n <= 0 || n > |readyAudits| {
        auditBatchInFlight := 0;
        return;
      }
      readyAudits := readyAudits[n..];
      auditBatchInFlight := 0;
    }
  }

  lemma {:induction false} FlattenSnoc(ready: seq<Ready>, r: Ready)
    ensures Flatten(ready + [r]) == Flatten(ready) + EntriesOf(r)
  {
    if ready == [] {
      assert ready + [r] == [r] && [r][1..] == [];
    } else {
      assert (ready + [r])[1..] == ready[1..] + [r];
      FlattenSnoc(ready[1..], r);
      Regroup(EntriesOf(ready[0]), Flatten(ready[1..]), EntriesOf(r));
    }
  }

  // ---------- Dispatch ----------

  /** doBatchSettlement: process, build, broadcast, and commit or shrink. Returns what the chain took. */
  method DoBatchSettlement(p: Proposer, now: nat, audited: set<TaskId>, hasKey: bool, outcome: Outcome)
    returns (sent: seq<Cleared>, ghost news: seq<Cleared>)
    requires p.Valid()
    modifies p
    ensures p.Valid()
    ensures Sorted(old(p.Current()), p.Current().(cleared := old(p.clearedTasks) + news), now, audited,
            old(p.pendingTasks).Keys, news)
    ensures var before := Line(old(p.clearedTasks), old(p.batchLimitOverride), []);
            Line(p.clearedTasks, p.batchLimitOverride, sent) ==
              After(before, Tick(news, if hasKey then outcome else Failed))
  {
    news := p.ProcessPending(now, audited);
    sent := [];
    var entries := p.BuildBatch();
    if entries == [] { return; }
    if !hasKey { return; }
    if outcome == TooLarge {
      var limit := p.ShrinkBatchLimit();
      return;
    }
    if outcome == Failed { return; }
    sent := entries;
    p.CommitBatch();
  }

  /** Audits completed by other goroutines while a submission is under way. */
  method Complete(p: Proposer, ready: seq<Ready>)
    requires p.Valid() && ThreeEach(ready)
    modifies p`readyAudits
    ensures p.Valid() && p.readyAudits == old(p.readyAudits) + ready
  {
    p.readyAudits := p.readyAudits + ready;
  }

  /** doAuditBatchSubmit, with audits completing before and after the broadcast. */
  method DoAuditBatchSubmit(p: Proposer, s: Submit, hasKey: bool) returns (sent: seq<AuditEntry>)
    requires p.Valid() && ThreeEach(s.early) && ThreeEach(s.late)
    modifies p`readyAudits, p`auditBatchInFlight
    ensures p.Valid()
    ensures var l := Submitted(AuditLine(old(p.readyAudits), []), s.(ok := s.ok && hasKey && p.hasAddress));
            p.readyAudits == l.ready && sent == Flatten(l.sent)
  {
    ghost var ready := p.readyAudits;
    ghost var n := Fit(ready, MAX_AUDIT_ENTRIES);
    FitOfThrees(ready, MAX_AUDIT_ENTRIES);
    assert [] + ready[..n] == ready[..n];
    sent := [];
    var entries := p.BuildAuditBatch();
    Complete(p, s.early);
    if entries == [] || !hasKey || !s.ok {
      Complete(p, s.late);
      assert ready == [] ==> n == 0 && p.readyAudits[0..] == p.readyAudits;
      return;
    }
    sent := entries;
    Complete(p, s.late);
    p.CommitAuditBatch();
  }

  /** Clearing tasks between build and commit, which the dispatch loop never does: a commit then drops
      exactly what was built if and only if nothing was cleared or the batch was full. */
  method CommitOutOfOrder(p: Proposer, now: nat, audited: set<TaskId>)
    returns (built: seq<Cleared>, dropped: seq<Cleared>, ghost news: seq<Cleared>)
    requires p.Valid()
    modifies p
    ensures p.Valid() && built == Built(old(p.clearedTasks), old(p.batchLimitOverride))
    ensures dropped + p.clearedTasks == old(p.clearedTasks) + news
    ensures dropped == built <==> news == [] || |old(p.clearedTasks)| >= Limit(old(p.batchLimitOverride))
  {
    built := p.BuildBatch();
    news := p.ProcessPending(now, audited);
    var queue := p.clearedTasks;
    p.CommitBatch();
    dropped := queue[..|queue| - |p.clearedTasks|];
    CommitDropsWhatWasBuilt(old(p.clearedTasks), news, p.batchLimitOverride, p.batchLimitOverride);
  }
}
