/** The epoch sweep of the multi-verification fund to the second verifiers of that epoch
    (x/settlement/keeper/keeper.go:1364-1466). */
module FundSweep {
  import opened Sums
  import opened FeeSplit
  import opened Ledger
  import opened Keeper

  /** Integer division as in Go: truncated toward zero. */
  function IntQuo(a: int, b: nat): int
    requires b > 0
  {
    if a >= 0 then a / b else -((-a) / b)
  }

  function FundPool(totalFees: int, p: Params): int { IntQuo(totalFees * p.ratios.fund, 1000) }

  // ---------- Counting who audited how often ----------

  /** Everybody who audited in the epoch, once per audit. */
  ghost function Appearances(records: seq<AuditRecord>, epoch: int): multiset<Address> {
    if records == [] then multiset{} else
      Appearances(records[..|records| - 1], epoch) +
      var ar := records[|records| - 1];
      if IntQuo(ar.processedAt, 100) == epoch then multiset(ar.verifiers) else multiset{}
  }

  /** Record i, position k: the auditor is `a` and the record is of the epoch. */
  ghost function AuditsBy(records: seq<AuditRecord>, epoch: int, a: Address): set<(nat, nat)> {
    set i: nat, k: nat | i < |records| && k < |records[i].verifiers| && InEpoch(records[i], epoch)
                         && records[i].verifiers[k] == a :: (i, k)
  }

  /** An epoch is a hundred blocks. */
  ghost predicate InEpoch(ar: AuditRecord, epoch: int) {
    if ar.processedAt >= 0 then 100 * epoch <= ar.processedAt < 100 * epoch + 100
    else 100 * epoch - 100 < ar.processedAt <= 100 * epoch
  }

  lemma SameEpoch(ar: AuditRecord, epoch: int)
    ensures InEpoch(ar, epoch) <==> IntQuo(ar.processedAt, 100) == epoch
  {
  }

  lemma {:induction false} TimesListed(vs: seq<Address>, i: nat, a: Address)
    ensures var at := set k: nat | k < |vs| && vs[k] == a :: (i, k);
            |at| == multiset(vs)[a]
    decreases |vs|
  {
    if vs != [] {
      var init, v := vs[..|vs| - 1], vs[|vs| - 1];
      assert vs == init + [v];
      TimesListed(init, i, a);
      var was, at := set k: nat | k < |init| && init[k] == a :: (i, k), set k: nat | k < |vs| && vs[k] == a :: (i, k);
      assert at == was + if v == a then {(i, |init|)} else {};
    }
  }

  lemma AuditsByMore(init: seq<AuditRecord>, ar: AuditRecord, epoch: int, a: Address, i: nat, k: nat)
    ensures (i, k) in AuditsBy(init + [ar], epoch, a) <==>
              || (i, k) in AuditsBy(init, epoch, a)
              || (InEpoch(ar, epoch) && i == |init| && k < |ar.verifiers| && ar.verifiers[k] == a)
  {
    if i < |init| { assert (init + [ar])[i] == init[i]; }
  }

  lemma AuditsBySnoc(init: seq<AuditRecord>, ar: AuditRecord, epoch: int, a: Address)
    ensures |AuditsBy(init + [ar], epoch, a)| ==
            |AuditsBy(init, epoch, a)| + if InEpoch(ar, epoch) then multiset(ar.verifiers)[a] else 0
  {
    var n := |init|;
    var was, now := AuditsBy(init, epoch, a), AuditsBy(init + [ar], epoch, a);
    var more := set k: nat | k < |ar.verifiers| && ar.verifiers[k] == a :: (n, k);
    TimesListed(ar.verifiers, n, a);
    Disjoint(now, was, if InEpoch(ar, epoch) then more else {}) by {
      forall i: nat, k: nat { AuditsByMore(init, ar, epoch, a, i, k); }
    }
  }

  lemma Disjoint(now: set<(nat, nat)>, was: set<(nat, nat)>, more: set<(nat, nat)>)
    requires forall x :: x in now <==> x in was || x in more
    requires forall x :: x in was ==> x !in more
    ensures |now| == |was| + |more|
  {
    assert now == was + more;
  }

  /** Everybody appears as often as they are listed in records of the epoch. */
  lemma {:induction false} AppearancesAreAudits(records: seq<AuditRecord>, epoch: int, a: Address)
    ensures Appearances(records, epoch)[a] == |AuditsBy(records, epoch, a)|
    decreases |records|
  {
    if records != [] {
      var init, ar := records[..|records| - 1], records[|records| - 1];
      assert records == init + [ar];
      AppearancesAreAudits(init, epoch, a);
      AuditsBySnoc(init, ar, epoch, a);
      SameEpoch(ar, epoch);
    }
  }

  ghost predicate Counts(counts: map<Address, nat>, total: nat, who: multiset<Address>) {
    && (forall a :: Get(counts, a) == who[a]) && (forall a :: a in counts ==> a in who)
    && Total(counts) == total == |who|
  }

  lemma CountOneMore(counts: map<Address, nat>, total: nat, who: multiset<Address>, a: Address)
    requires Counts(counts, total, who)
    ensures Counts(counts[a := Get(counts, a) + 1], total + 1, who + multiset{a})
  {
    TotalPut(counts, a, Get(counts, a) + 1);
  }

  /** Count the auditors of one record. */
  method CountRecord(counts: map<Address, nat>, total: nat, vs: seq<Address>, ghost who: multiset<Address>)
    returns (counts': map<Address, nat>, total': nat)
    requires Counts(counts, total, who)
    ensures Counts(counts', total', who + multiset(vs))
  {
    counts', total' := counts, total;
    ghost var seen := who;
    for k := 0 to |vs|
      invariant seen == who + multiset(vs[..k]) && Counts(counts', total', seen)
    {
      OneAppearance(vs, k, who);
      CountOneMore(counts', total', seen, vs[k]);
      counts' := counts'[vs[k] := Get(counts', vs[k]) + 1];
      total' := total' + 1;
      seen := seen + multiset{vs[k]};
    }
    assert vs[..|vs|] == vs;
  }

  lemma OneAppearance(vs: seq<Address>, k: nat, who: multiset<Address>)
    requires k < |vs|
    ensures who + multiset(vs[..k + 1]) == who + multiset(vs[..k]) + multiset{vs[k]}
  {
    assert vs[..k + 1] == vs[..k] + [vs[k]];
  }

  lemma NextRecord(records: seq<AuditRecord>, i: nat, epoch: int)
    requires i < |records|
    ensures var ar := records[i];
            Appearances(records[..i + 1], epoch) ==
            if IntQuo(ar.processedAt, 100) == epoch then Appearances(records[..i], epoch) + multiset(ar.verifiers)
            else Appearances(records[..i], epoch)
  {
    assert records[..i + 1][..i] == records[..i];
  }

  lemma NobodyCounted()
    ensures Counts(map[], 0, multiset{})
  {
  }

  method CountPersonTimes(records: seq<AuditRecord>, epoch: int) returns (counts: map<Address, nat>, total: nat)
    ensures Counts(counts, total, Appearances(records, epoch))
  {
    counts, total := map[], 0;
    NobodyCounted();
    for i := 0 to |records|
      invariant Counts(counts, total, Appearances(records[..i], epoch))
    {
      NextRecord(records, i, epoch);
      if IntQuo(records[i].processedAt, 100) != epoch { continue; }
      counts, total := CountRecord(counts, total, records[i].verifiers, Appearances(records[..i], epoch));
    }
    assert records[..|records|] == records;
  }

  // ---------- Paying them ----------

  /** The keys of the count map, sorted: some arrangement of the auditors, each once. */
  ghost predicate Arranges(order: seq<Address>, who: multiset<Address>) {
    && (forall a :: a in order <==> a in who)
    && (forall i, j :: 0 <= i < j < |order| ==> order[i] != order[j])
  }

  ghost function CountSum(counts: map<Address, nat>, order: seq<Address>): nat {
    if order == [] then 0 else Get(counts, order[0]) + CountSum(counts, order[1..])
  }

  lemma {:induction false} CountSumDrop(counts: map<Address, nat>, order: seq<Address>, a: Address)
    requires a !in order
    ensures CountSum(counts - {a}, order) == CountSum(counts, order)
  {
    if order != [] { CountSumDrop(counts, order[1..], a); }
  }

  lemma {:induction false} CountSumIsTotal(counts: map<Address, nat>, order: seq<Address>)
    requires forall a :: a in counts <==> a in order
    requires forall i, j :: 0 <= i < j < |order| ==> order[i] != order[j]
    ensures CountSum(counts, order) == Total(counts)
    decreases |order|
  {
    if order == [] {
      assert counts == map[];
    } else {
      var rest := counts - {order[0]};
      assert order == [order[0]] + order[1..];
      CountSumIsTotal(rest, order[1..]);
      CountSumDrop(counts, order[1..], order[0]);
      TotalSplit(counts, order[0]);
    }
  }

  /** Everybody can be paid. */
  ghost predicate AllPayable(order: seq<Address>, refused: set<nat>) {
    forall a :: a in order ==> a.Bech32? && a.account !in refused
  }

  /** The pool has paid out `amount`, and no coin was made or lost. */
  ghost predicate PaidOut(before: Bank, after: Bank, amount: nat) {
    after.pool == before.pool - amount && Money(after) == Money(before)
  }

  /** What is left of the pool covers what the remaining auditors are due. */
  ghost predicate Suffices(pool: nat, given: nat, per: nat, counts: map<Address, nat>, order: seq<Address>) {
    given + per * CountSum(counts, order) <= pool
  }

  lemma SufficesNext(pool: nat, given: nat, per: nat, counts: map<Address, nat>, order: seq<Address>)
    requires order != [] && Suffices(pool, given, per, counts, order)
    ensures Suffices(pool, given, per, counts, order[1..])
    ensures Suffices(pool, given + per * Get(counts, order[0]), per, counts, order[1..])
    ensures given <= pool
  {
    var a, rest := Get(counts, order[0]), CountSum(counts, order[1..]);
    assert per * (a + rest) == per * a + per * rest && per * a >= 0 && per * rest >= 0;
  }

  /** The payout to the next auditor: by count, or for the last one whatever is left. */
  function Due(order: seq<Address>, counts: map<Address, nat>, per: nat, pool: nat, given: nat): int
    requires order != []
  {
    if |order| == 1 then pool - given else per * Get(counts, order[0])
  }

  /** The payouts that go through: undecodable, unpaid and refused auditors are passed over. */
  function Payouts(order: seq<Address>, counts: map<Address, nat>, per: nat, pool: nat, given: nat, b: Bank,
                   refused: set<nat>): seq<Payout>
    decreases |order|
  {
    if order == [] then [] else
      var amount := Due(order, counts, per, pool, given);
      if !order[0].Bech32? || amount <= 0 then Payouts(order[1..], counts, per, pool, given, b, refused) else
        match Send(b, Payout(order[0].account, amount), refused)
        case None => Payouts(order[1..], counts, per, pool, given, b, refused)
        case Some(b') =>
          [Payout(order[0].account, amount)] + Payouts(order[1..], counts, per, pool, given + amount, b', refused)
  }

  /** All payouts go through, and together never exceed the pool. */
  lemma {:induction false} PayoutsFit(order: seq<Address>, counts: map<Address, nat>, per: nat, pool: nat, given: nat,
                                      b: Bank, refused: set<nat>)
    requires order != [] ==> Suffices(pool, given, per, counts, order)
    requires given <= pool
    ensures var ps := Payouts(order, counts, per, pool, given, b, refused);
            PayAll(b, ps, refused).Some? && given + Sum(ps) <= pool
    decreases |order|
  {
    if order != [] {
      SufficesNext(pool, given, per, counts, order);
      var amount := Due(order, counts, per, pool, given);
      if order[0].Bech32? && amount > 0 && Send(b, Payout(order[0].account, amount), refused).Some? {
        var b' := Send(b, Payout(order[0].account, amount), refused).value;
        PayoutsFit(order[1..], counts, per, pool, given + amount, b', refused);
        var ps := Payouts(order, counts, per, pool, given, b, refused);
        assert ps[1..] == Payouts(order[1..], counts, per, pool, given + amount, b', refused);
      } else {
        PayoutsFit(order[1..], counts, per, pool, given, b, refused);
      }
    }
  }

  ghost predicate CanBePaid(a: Address, refused: set<nat>) { a.Bech32? && a.account !in refused }

  lemma DueFits(order: seq<Address>, counts: map<Address, nat>, per: nat, pool: nat, given: nat)
    requires order != [] && given <= pool && Suffices(pool, given, per, counts, order)
    ensures 0 <= Due(order, counts, per, pool, given) <= pool - given
  {
    var n, rest := Get(counts, order[0]), CountSum(counts, order[1..]);
    assert per * (n + rest) == per * n + per * rest && per * rest >= 0 && per * n >= 0;
  }

  /** The bank after the next payout, and that the others follow. */
  lemma NextPayout(order: seq<Address>, counts: map<Address, nat>, per: nat, pool: nat, given: nat, b: Bank,
                   refused: set<nat>, a: nat)
    returns (b1: Bank)
    requires order != [] && CanBePaid(order[0], refused) && pool - given <= b.pool
    requires 0 <= Due(order, counts, per, pool, given) <= pool - given
    ensures var amount := Due(order, counts, per, pool, given);
            && b1.pool == b.pool - amount
            && Get(b1.wallets, a) == Get(b.wallets, a) + (if a == order[0].account then amount else 0)
            && Sum(Payouts(order, counts, per, pool, given, b, refused)) ==
               amount + Sum(Payouts(order[1..], counts, per, pool, given + amount, b1, refused))
            && PayAll(b, Payouts(order, counts, per, pool, given, b, refused), refused) ==
               PayAll(b1, Payouts(order[1..], counts, per, pool, given + amount, b1, refused), refused)
  {
    var amount := Due(order, counts, per, pool, given);
    b1 := if amount > 0 then Send(b, Payout(order[0].account, amount), refused).value else b;
    if amount > 0 {
      var ps := Payouts(order, counts, per, pool, given, b, refused);
      assert ps[1..] == Payouts(order[1..], counts, per, pool, given + amount, b1, refused);
    }
  }

  lemma SkipPayout(order: seq<Address>, counts: map<Address, nat>, per: nat, pool: nat, given: nat, b: Bank,
                   refused: set<nat>)
    requires order != [] && !CanBePaid(order[0], refused)
    ensures Payouts(order, counts, per, pool, given, b, refused) ==
            Payouts(order[1..], counts, per, pool, given, b, refused)
  {
  }

  /** When everybody can be paid the whole pool goes out. */
  lemma {:induction false} PayoutsExhaust(order: seq<Address>, counts: map<Address, nat>, per: nat, pool: nat,
                                          given: nat, b: Bank, refused: set<nat>)
    requires order != [] && Suffices(pool, given, per, counts, order) && AllPayable(order, refused)
             && pool - given <= b.pool
    ensures given + Sum(Payouts(order, counts, per, pool, given, b, refused)) == pool
    decreases |order|
  {
    SufficesNext(pool, given, per, counts, order);
    DueFits(order, counts, per, pool, given);
    assert order[0] in order;
    var b1 := NextPayout(order, counts, per, pool, given, b, refused, 0);
    if |order| > 1 {
      PayoutsExhaust(order[1..], counts, per, pool, given + Due(order, counts, per, pool, given), b1, refused);
    }
  }

  // ---------- Who gets what ----------

  /** The audits of all but the last, as far as they can be paid. */
  ghost function PaidAudits(order: seq<Address>, counts: map<Address, nat>, refused: set<nat>): nat {
    if |order| <= 1 then 0
    else (if CanBePaid(order[0], refused) then Get(counts, order[0]) else 0) + PaidAudits(order[1..], counts, refused)
  }

  /** So much per audit, or for the last one what the others leave. */
  ghost function SweepShare(order: seq<Address>, counts: map<Address, nat>, per: nat, left: int, refused: set<nat>,
                            a: nat): int
  {
    if Bech32(a) !in order || a in refused then 0
    else if order[|order| - 1] == Bech32(a) then left - per * PaidAudits(order, counts, refused)
    else per * Get(counts, Bech32(a))
  }

  lemma SweepShareSkip(order: seq<Address>, counts: map<Address, nat>, per: nat, left: int, refused: set<nat>, a: nat)
    requires order != [] && !CanBePaid(order[0], refused)
    ensures SweepShare(order, counts, per, left, refused, a) == SweepShare(order[1..], counts, per, left, refused, a)
  {
    assert order == [order[0]] + order[1..];
  }

  lemma OneAuditorMore(per: nat, n: nat, rest: nat)
    ensures per * (n + rest) == per * n + per * rest
  {
  }

  lemma SweepShareNext(order: seq<Address>, counts: map<Address, nat>, per: nat, left: int, amount: int,
                       refused: set<nat>, a: nat)
    requires order != [] && (forall i :: 0 < i < |order| ==> order[i] != order[0]) && CanBePaid(order[0], refused)
    requires amount == if |order| == 1 then left else per * Get(counts, order[0])
    ensures SweepShare(order, counts, per, left, refused, a) ==
            if order[0] == Bech32(a) then amount else SweepShare(order[1..], counts, per, left - amount, refused, a)
  {
    var rest := order[1..];
    assert order == [order[0]] + rest;
    if |order| == 1 {
      assert PaidAudits(order, counts, refused) == 0;
    } else {
      assert order[|order| - 1] == rest[|rest| - 1] && order[|order| - 1] != order[0];
      OneAuditorMore(per, Get(counts, order[0]), PaidAudits(rest, counts, refused));
    }
  }

  /** What each wallet gains from the sweep, if the module account covers the pool. */
  lemma {:induction false} SweepReaches(order: seq<Address>, counts: map<Address, nat>, per: nat, pool: nat, given: nat,
                                        b: Bank, refused: set<nat>, a: nat)
    returns (b2: Bank)
    requires forall i, j :: 0 <= i < j < |order| ==> order[i] != order[j]
    requires order != [] ==> Suffices(pool, given, per, counts, order)
    requires given <= pool && pool - given <= b.pool
    ensures PayAll(b, Payouts(order, counts, per, pool, given, b, refused), refused) == Some(b2)
    ensures Get(b2.wallets, a) == Get(b.wallets, a) + SweepShare(order, counts, per, pool - given, refused, a)
    decreases |order|
  {
    if order == [] {
      b2 := b;
    } else {
      SufficesNext(pool, given, per, counts, order);
      DueFits(order, counts, per, pool, given);
      var amount, rest := Due(order, counts, per, pool, given), order[1..];
      if CanBePaid(order[0], refused) {
        SweepShareNext(order, counts, per, pool - given, amount, refused, a);
        assert order[0] == Bech32(a) ==> Bech32(a) !in rest;
        var b1 := NextPayout(order, counts, per, pool, given, b, refused, a);
        b2 := SweepReaches(rest, counts, per, pool, given + amount, b1, refused, a);
      } else {
        SweepShareSkip(order, counts, per, pool - given, refused, a);
        SkipPayout(order, counts, per, pool, given, b, refused);
        b2 := SweepReaches(rest, counts, per, pool, given, b, refused, a);
      }
    }
  }

  /** How often each auditor is among them. */
  ghost function Tally(who: multiset<Address>): map<Address, nat> { map a | a in who :: who[a] }

  /** Every auditor got the pool's share of one audit times the number of audits, the last one the rest, and
      nobody else anything. */
  ghost predicate SweptTo(b: Bank, b2: Bank, pool: nat, who: multiset<Address>, order: seq<Address>, refused: set<nat>)
    requires |who| > 0
  {
    forall a :: Get(b2.wallets, a) ==
                Get(b.wallets, a) + SweepShare(order, Tally(who), pool / |who|, pool, refused, a)
  }

  lemma SweptAll(order: seq<Address>, counts: map<Address, nat>, total: nat, pool: nat, b: Bank, refused: set<nat>,
                 who: multiset<Address>)
    requires Counts(counts, total, who) && Arranges(order, who) && total > 0 && order != []
    requires Suffices(pool, 0, pool / total, counts, order) && pool <= b.pool
    ensures var ps := Payouts(order, counts, pool / total, pool, 0, b, refused);
            PayAll(b, ps, refused).Some? && SweptTo(b, PayAll(b, ps, refused).value, pool, who, order, refused)
  {
    forall a ensures a in counts <==> a in who { assert a in who <==> Get(counts, a) > 0; }
    assert counts == Tally(who);
    SweepTotals(order, counts, pool / total, pool, b, refused);
    var b1 := PayAll(b, Payouts(order, counts, pool / total, pool, 0, b, refused), refused).value;
    forall a
      ensures Get(b1.wallets, a) == Get(b.wallets, a) + SweepShare(order, counts, pool / total, pool, refused, a)
    {
      var b2 := SweepReaches(order, counts, pool / total, pool, 0, b, refused, a);
    }
  }

  /** Pay each auditor by count and the last one what is left; a failed send is passed over. */
  method PayByCount(ctx: Context, order: seq<Address>, counts: map<Address, nat>, per: nat, pool: nat,
                    refused: set<nat>)
    returns (distributed: nat)
    requires Suffices(pool, 0, per, counts, order)
    modifies ctx
    ensures var ps := Payouts(order, counts, per, pool, 0, old(ctx.store).bank, refused);
            && PayAll(old(ctx.store).bank, ps, refused).Some? && distributed == Sum(ps)
            && ctx.store == old(ctx.store).(bank := PayAll(old(ctx.store).bank, ps, refused).value)
  {
    distributed := 0;
    ghost var b0 := ctx.store.bank;
    ghost var ps := Payouts(order, counts, per, pool, 0, b0, refused);
    PayoutsFit(order, counts, per, pool, 0, b0, refused);
    assert order[0..] == order;
    for i := 0 to |order|
      invariant ctx.store == old(ctx.store).(bank := ctx.store.bank)
      invariant PayAll(b0, ps, refused)
             == PayAll(ctx.store.bank,
                       Payouts(order[i..], counts, per, pool, distributed, ctx.store.bank, refused), refused)
      invariant Sum(ps) ==
                distributed + Sum(Payouts(order[i..], counts, per, pool, distributed, ctx.store.bank, refused))
    {
      ghost var left, b := order[i..], ctx.store.bank;
      assert left[0] == order[i] && left[1..] == order[i + 1..];
      if !order[i].Bech32? { continue; }
      var amount := if i == |order| - 1 then pool - distributed else per * Get(counts, order[i]);
      if amount > 0 {
        var sent := SendCoins(ctx, order[i].account, amount, refused);
        if !sent { continue; }
        ghost var todo := Payouts(left, counts, per, pool, distributed, b, refused);
        assert todo[0] == Payout(order[i].account, amount)
            && todo[1..] == Payouts(order[i + 1..], counts, per, pool, distributed + amount, ctx.store.bank, refused);
        distributed := distributed + amount;
      }
    }
  }

  /** Enough for everybody: the pool holds at least one coin per audit and the module account covers it. */
  ghost predicate Covers(pool: int, who: multiset<Address>, order: seq<Address>, refused: set<nat>, b: Bank) {
    |who| > 0 && |who| <= pool <= b.pool && AllPayable(order, refused)
  }

  lemma ArrangedTotal(counts: map<Address, nat>, total: nat, order: seq<Address>, who: multiset<Address>)
    requires Counts(counts, total, who) && Arranges(order, who) && total > 0
    ensures order != [] && CountSum(counts, order) == total
  {
    forall a ensures a in counts <==> a in order {
      assert a in who <==> Get(counts, a) > 0;
    }
    CountSumIsTotal(counts, order);
  }

  lemma PerAudit(pool: int, total: nat)
    requires total > 0
    ensures pool >= 0 ==> IntQuo(pool, total) >= 0 && IntQuo(pool, total) * total <= pool
    ensures pool >= total ==> IntQuo(pool, total) >= 1
  {
    if pool >= 0 { assert pool == pool / total * total + pool % total; }
  }

  lemma SweepTotals(order: seq<Address>, counts: map<Address, nat>, per: nat, pool: nat, b: Bank, refused: set<nat>)
    requires order != [] && Suffices(pool, 0, per, counts, order)
    ensures var ps := Payouts(order, counts, per, pool, 0, b, refused);
            && PayAll(b, ps, refused).Some? && Sum(ps) <= pool && PaidOut(b, PayAll(b, ps, refused).value, Sum(ps))
            && (AllPayable(order, refused) && pool <= b.pool ==> Sum(ps) == pool)
  {
    var ps := Payouts(order, counts, per, pool, 0, b, refused);
    PayoutsFit(order, counts, per, pool, 0, b, refused);
    PayAllConserves(b, ps, refused);
    if AllPayable(order, refused) && pool <= b.pool { PayoutsExhaust(order, counts, per, pool, 0, b, refused); }
  }

  /** What is left to do once the pool is known. */
  method SweepPool(ctx: Context, pool: int, counts: map<Address, nat>, total: nat, order: seq<Address>,
                   refused: set<nat>, ghost who: multiset<Address>)
    returns (distributed: nat, panicked: bool)
    requires Counts(counts, total, who) && Arranges(order, who)
    modifies ctx
    ensures panicked ==> pool < 0
    ensures distributed <= if pool > 0 then pool else 0
    ensures ctx.store == old(ctx.store).(bank := ctx.store.bank)
            && PaidOut(old(ctx.store).bank, ctx.store.bank, distributed)
    ensures Covers(pool, who, order, refused, old(ctx.store).bank) ==> distributed == pool
    ensures 0 < |who| <= pool <= old(ctx.store).bank.pool ==>
              SweptTo(old(ctx.store).bank, ctx.store.bank, pool, who, order, refused)
  {
    if total == 0 { return 0, false; }
    var per := IntQuo(pool, total);
    PerAudit(pool, total);
    if per == 0 { return 0, false; }
    if pool < 0 {
      var i := 0;
      while i < |order| && !order[i].Bech32? { i := i + 1; }
      return 0, i < |order|;
    }
    ArrangedTotal(counts, total, order, who);
    SweepTotals(order, counts, per, pool, ctx.store.bank, refused);
    if pool <= ctx.store.bank.pool { SweptAll(order, counts, total, pool, ctx.store.bank, refused, who); }
    distributed := PayByCount(ctx, order, counts, per, pool, refused);
    panicked := false;
  }

  /** DistributeMultiVerificationFund: the sweep never pays more than its pool, and pays all of it
      when every auditor can be paid. A negative fee total makes it panic at the first payout. */
  method DistributeMultiVerificationFund(ctx: Context, records: seq<AuditRecord>, epoch: int, totalFees: int,
                                         personCount: nat, order: seq<Address>, refused: set<nat>, p: Params)
    returns (distributed: nat, panicked: bool)
    requires Arranges(order, Appearances(records, epoch))
    modifies ctx
    ensures panicked ==> totalFees < 0
    ensures distributed <= if totalFees > 0 then FundPool(totalFees, p) else 0
    ensures ctx.store == old(ctx.store).(bank := ctx.store.bank)
            && PaidOut(old(ctx.store).bank, ctx.store.bank, distributed)
    ensures personCount > 0
            && Covers(FundPool(totalFees, p), Appearances(records, epoch), order, refused, old(ctx.store).bank) ==>
              distributed == FundPool(totalFees, p)
    ensures var who, pool := Appearances(records, epoch), totalFees * p.ratios.fund / 1000;
            personCount > 0 && 0 < |who| <= pool <= old(ctx.store).bank.pool ==>
              SweptTo(old(ctx.store).bank, ctx.store.bank, pool, who, order, refused)
  {
    FundPoolSign(totalFees, p);
    if personCount == 0 || totalFees == 0 { return 0, false; }
    var pool := FundPool(totalFees, p);
    if pool == 0 { return 0, false; }
    var counts, total := CountPersonTimes(records, epoch);
    distributed, panicked := SweepPool(ctx, pool, counts, total, order, refused, Appearances(records, epoch));
  }

  lemma FundPoolSign(totalFees: int, p: Params)
    ensures totalFees >= 0 ==> FundPool(totalFees, p) >= 0
    ensures totalFees <= 0 ==> FundPool(totalFees, p) <= 0
  {
    if totalFees >= 0 { MulMonotone(0, totalFees, p.ratios.fund); } else { MulMonotone(0, -totalFees, p.ratios.fund); }
    assert totalFees * p.ratios.fund == -(-totalFees * p.ratios.fund);
  }
}
