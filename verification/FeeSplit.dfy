/** Splitting a fee between worker, verifiers and the multi-verification fund, and the
    bank sends that carry it out (x/settlement/keeper/keeper.go:1236-1466). */
module FeeSplit {
  import opened Sums

  datatype Option<+T> = None | Some(value: T)

  /** An address as it appears in a message: empty, undecodable, or naming an account. */
  datatype Address = Empty | Malformed(raw: string) | Bech32(account: nat)

  /** The settlement module account and everybody's ordinary bank balance. */
  datatype Bank = Bank(pool: nat, wallets: map<nat, nat>)

  datatype Payout = Payout(to: nat, amount: nat)

  /** Fee ratios, in per mille. */
  datatype Ratios = Ratios(executor: nat, verifier: nat, fund: nat)

  ghost predicate ValidRatios(r: Ratios) {
    0 < r.executor && 0 < r.verifier && 0 < r.fund && r.executor + r.verifier + r.fund == 1000
  }

  function PerMille(amount: nat, ratio: nat): nat {
    amount * ratio / 1000
  }

  // ---------- Bank sends ----------

  /** SendCoinsFromModuleToAccount: refused recipients and an empty pool make it fail. */
  function Send(b: Bank, p: Payout, refused: set<nat>): Option<Bank> {
    if p.to in refused || p.amount > b.pool then None
    else Some(Bank(b.pool - p.amount, b.wallets[p.to := Get(b.wallets, p.to) + p.amount]))
  }

  function PayAll(b: Bank, ps: seq<Payout>, refused: set<nat>): Option<Bank>
    decreases |ps|
  {
    if ps == [] then Some(b) else
      match Send(b, ps[0], refused)
      case None => None
      case Some(b') => PayAll(b', ps[1..], refused)
  }

  function Sum(ps: seq<Payout>): nat {
    if ps == [] then 0 else ps[0].amount + Sum(ps[1..])
  }

  ghost function Money(b: Bank): nat {
    b.pool + Total(b.wallets)
  }

  /** A completed payout run takes exactly its sum out of the pool and creates no money. */
  lemma {:induction false} PayAllConserves(b: Bank, ps: seq<Payout>, refused: set<nat>)
    requires PayAll(b, ps, refused).Some?
    ensures var b' := PayAll(b, ps, refused).value; b'.pool == b.pool - Sum(ps) && Money(b') == Money(b)
    decreases |ps|
  {
    if ps != [] {
      TotalPut(b.wallets, ps[0].to, Get(b.wallets, ps[0].to) + ps[0].amount);
      PayAllConserves(Send(b, ps[0], refused).value, ps[1..], refused);
    }
  }

  /** A payout run goes through exactly when the pool covers its sum and no recipient is refused. */
  lemma {:induction false} PayAllSucceeds(b: Bank, ps: seq<Payout>, refused: set<nat>)
    ensures PayAll(b, ps, refused).Some? <==> Sum(ps) <= b.pool && forall p :: p in ps ==> p.to !in refused
    decreases |ps|
  {
    if ps != [] {
      assert ps == [ps[0]] + ps[1..];
      var sent := Send(b, ps[0], refused);
      if sent.Some? { PayAllSucceeds(sent.value, ps[1..], refused); }
    }
  }

  lemma {:induction false} PayAllAppend(b: Bank, ps: seq<Payout>, qs: seq<Payout>, refused: set<nat>)
    ensures PayAll(b, ps + qs, refused) ==
            match PayAll(b, ps, refused) case None => None case Some(b') => PayAll(b', qs, refused)
    decreases |ps|
  {
    if ps == [] {
      assert ps + qs == qs;
    } else {
      assert (ps + qs)[1..] == ps[1..] + qs;
      var sent := Send(b, ps[0], refused);
      if sent.Some? { PayAllAppend(sent.value, ps[1..], qs, refused); }
    }
  }

  lemma {:induction false} SumAppend(ps: seq<Payout>, qs: seq<Payout>)
    ensures Sum(ps + qs) == Sum(ps) + Sum(qs)
  {
    if ps == [] {
      assert ps + qs == qs;
    } else {
      assert (ps + qs)[1..] == ps[1..] + qs;
      SumAppend(ps[1..], qs);
    }
  }

  // ---------- Deduplication ----------

  /** The nonempty addresses not seen yet, each once, in first-seen order. */
  function Dedup(vs: seq<Address>, seen: set<Address>): seq<Address> {
    if vs == [] then []
    else if vs[0].Empty? || vs[0] in seen then Dedup(vs[1..], seen)
    else [vs[0]] + Dedup(vs[1..], seen + {vs[0]})
  }

  function Unique(vs: seq<Address>): seq<Address> { Dedup(vs, {}) }

  ghost predicate Distinct(us: seq<Address>) {
    forall i, j :: 0 <= i < j < |us| ==> us[i] != us[j]
  }

  lemma {:induction false} DedupSpec(vs: seq<Address>, seen: set<Address>)
    ensures var u := Dedup(vs, seen);
            && (forall a :: a in u <==> a in vs && a != Empty && a !in seen)
            && Distinct(u)
  {
    if vs != [] {
      DedupSpec(vs[1..], seen);
      DedupSpec(vs[1..], seen + {vs[0]});
      var u := Dedup(vs, seen);
      assert vs == [vs[0]] + vs[1..];
      if !vs[0].Empty? && vs[0] !in seen {
        var rest := Dedup(vs[1..], seen + {vs[0]});
        forall i, j | 0 <= i < j < |u| ensures u[i] != u[j] {
          assert u[j] == rest[j - 1] && u[j] in rest;
        }
      }
    }
  }

  /** Where an address is first listed. */
  ghost function First(vs: seq<Address>, a: Address): nat
    requires a in vs
  {
    if vs[0] == a then 0 else 1 + First(vs[1..], a)
  }

  /** In the order in which they are first listed. */
  lemma {:induction false} DedupOrder(vs: seq<Address>, seen: set<Address>)
    ensures var u := Dedup(vs, seen);
            forall i, j :: 0 <= i < j < |u| ==> u[i] in vs && u[j] in vs && First(vs, u[i]) < First(vs, u[j])
  {
    if vs != [] {
      var u, next := Dedup(vs, seen), if vs[0].Empty? || vs[0] in seen then seen else seen + {vs[0]};
      var rest := Dedup(vs[1..], next);
      DedupOrder(vs[1..], next);
      DedupSpec(vs[1..], next);
      assert vs == [vs[0]] + vs[1..];
      forall k | 0 <= k < |rest| ensures rest[k] in vs[1..] && (rest[k] != vs[0] || vs[0] in seen || vs[0].Empty?) {
        assert rest[k] in rest;
      }
      forall i, j | 0 <= i < j < |u| ensures u[i] in vs && u[j] in vs && First(vs, u[i]) < First(vs, u[j]) {
        var off := |u| - |rest|;
        assert u[j] == rest[j - off] && u[j] in rest;
        if i >= off { assert u[i] == rest[i - off] && u[i] in rest; }
      }
    }
  }

  lemma {:induction false} DedupSnoc(vs: seq<Address>, v: Address, seen: set<Address>)
    ensures Dedup(vs + [v], seen) ==
            Dedup(vs, seen) + if v.Empty? || v in seen || v in vs then [] else [v]
  {
    if vs == [] {
      assert vs + [v] == [v] && [v][1..] == [];
    } else {
      assert (vs + [v])[1..] == vs[1..] + [v];
      assert vs == [vs[0]] + vs[1..];
      DedupSnoc(vs[1..], v, seen);
      DedupSnoc(vs[1..], v, seen + {vs[0]});
    }
  }

  method DedupVerifierResults(vs: seq<Address>) returns (out: seq<Address>)
    ensures out == Unique(vs)
  {
    var seen: set<Address> := {};
    out := [];
    for i := 0 to |vs|
      invariant out == Unique(vs[..i])
      invariant forall a :: a in seen <==> a in vs[..i] && a != Empty
    {
      assert vs[..i + 1] == vs[..i] + [vs[i]];
      DedupSnoc(vs[..i], vs[i], {});
      if vs[i].Empty? || vs[i] in seen { continue; }
      seen := seen + {vs[i]};
      out := out + [vs[i]];
    }
    assert vs[..|vs|] == vs;
  }

  // ---------- Shares of the verifier pool ----------

  /** Payouts to the remaining unique verifiers `us`, when `given` of `total` has been handed out:
      `per` to each, the last one taking what is left; undecodable addresses are passed over. */
  function Shares(us: seq<Address>, per: nat, total: nat, given: nat): seq<Payout>
    requires given + per * |us| <= total
  {
    if us == [] then []
    else
      assert per * |us| == per + per * |us[1..]|;
      if !us[0].Bech32? then Shares(us[1..], per, total, given) else
        var amount := if |us| == 1 then total - given else per;
        (if amount > 0 then [Payout(us[0].account, amount)] else []) +
        Shares(us[1..], per, total, given + amount)
  }

  /** An undecodable address gets no share. */
  lemma SkipShare(us: seq<Address>, per: nat, total: nat, given: nat)
    requires us != [] && !us[0].Bech32? && given + per * |us| <= total
    ensures given + per * |us[1..]| <= total
    ensures Shares(us, per, total, given) == Shares(us[1..], per, total, given)
  {
    assert per * |us| == per + per * |us[1..]|;
  }

  /** One step down the list of shares. */
  lemma NextShare(us: seq<Address>, per: nat, total: nat, given: nat, b: Bank, refused: set<nat>)
    requires us != [] && us[0].Bech32? && given + per * |us| <= total
    ensures var amount := if |us| == 1 then total - given else per;
            given + amount + per * |us[1..]| <= total
    ensures var amount := if |us| == 1 then total - given else per;
            var all, rest := Shares(us, per, total, given), Shares(us[1..], per, total, given + amount);
            && Sum(all) == amount + Sum(rest)
            && PayAll(b, all, refused) ==
               if amount == 0 then PayAll(b, rest, refused) else
                 match Send(b, Payout(us[0].account, amount), refused)
                 case None => None
                 case Some(b') => PayAll(b', rest, refused)
  {
    assert per * |us| == per + per * |us[1..]|;
    var amount := if |us| == 1 then total - given else per;
    var all, rest := Shares(us, per, total, given), Shares(us[1..], per, total, given + amount);
    if amount > 0 {
      assert all[0] == Payout(us[0].account, amount) && all[1..] == rest;
    } else {
      assert all == rest;
    }
  }

  /** The pool is never overdrawn, and is used up when the last unique verifier can be paid. */
  lemma {:induction false} SharesSum(us: seq<Address>, per: nat, total: nat, given: nat)
    requires given + per * |us| <= total
    ensures given + Sum(Shares(us, per, total, given)) <= total
    ensures us != [] && us[|us| - 1].Bech32? ==> given + Sum(Shares(us, per, total, given)) == total
  {
    if us != [] {
      assert per * |us| == per + per * |us[1..]|;
      if !us[0].Bech32? {
        SharesSum(us[1..], per, total, given);
      } else {
        var amount := if |us| == 1 then total - given else per;
        SharesSum(us[1..], per, total, given + amount);
        var head := if amount > 0 then [Payout(us[0].account, amount)] else [];
        SumAppend(head, Shares(us[1..], per, total, given + amount));
        assert Sum(head) == amount;
      }
    }
  }

  function VerifierPayouts(total: nat, verifiers: seq<Address>): seq<Payout> {
    var us := Unique(verifiers);
    if us == [] then [] else
      DivideThenMultiply(total, |us|);
      var per := total / |us|;
      assert per * |us| <= total;
      Shares(us, per, total, 0)
  }

  lemma DivideThenMultiply(total: nat, n: nat)
    requires 0 < n
    ensures total / n * n <= total
  {
  }

  lemma VerifierPayoutsSum(total: nat, verifiers: seq<Address>)
    ensures Sum(VerifierPayouts(total, verifiers)) <= total
    ensures var us := Unique(verifiers);
            us != [] && us[|us| - 1].Bech32? ==> Sum(VerifierPayouts(total, verifiers)) == total
  {
    var us := Unique(verifiers);
    if us != [] {
      DivideThenMultiply(total, |us|);
      var per := total / |us|;
      assert per * |us| <= total;
      SharesSum(us, per, total, 0);
    }
  }

  ghost predicate PaysOnly(ps: seq<Payout>, us: seq<Address>) {
    forall i :: 0 <= i < |ps| ==> Bech32(ps[i].to) in us
  }

  ghost predicate PaysOnce(ps: seq<Payout>) {
    forall i, j :: 0 <= i < j < |ps| ==> ps[i].to != ps[j].to
  }

  lemma {:induction false} SharesPayOnce(us: seq<Address>, per: nat, total: nat, given: nat)
    requires given + per * |us| <= total
    requires Distinct(us)
    ensures PaysOnly(Shares(us, per, total, given), us) && PaysOnce(Shares(us, per, total, given))
  {
    if us != [] {
      assert per * |us| == per + per * |us[1..]|;
      var amount := if |us| == 1 then total - given else per;
      var given' := if us[0].Bech32? then given + amount else given;
      SharesPayOnce(us[1..], per, total, given');
      var rest := Shares(us[1..], per, total, given');
      assert us == [us[0]] + us[1..];
      assert PaysOnly(rest, us);
      forall i | 0 <= i < |rest| ensures Bech32(rest[i].to) != us[0] {
        assert Bech32(rest[i].to) in us[1..];
      }
    }
  }

  /** No account is paid twice out of one verifier pool, however often it is listed. */
  lemma NoDoublePay(total: nat, verifiers: seq<Address>)
    ensures PaysOnce(VerifierPayouts(total, verifiers))
  {
    var us := Unique(verifiers);
    DedupSpec(verifiers, {});
    if us != [] {
      DivideThenMultiply(total, |us|);
      var per := total / |us|;
      assert per * |us| <= total;
      SharesPayOnce(us, per, total, 0);
    }
  }

  // ---------- Who gets what ----------

  ghost function Decodable(us: seq<Address>): nat {
    if us == [] then 0 else (if us[0].Bech32? then 1 else 0) + Decodable(us[1..])
  }

  /** An even share, or for the last one what the others leave. */
  ghost function ShareFor(us: seq<Address>, per: nat, left: int, a: nat): int {
    if Bech32(a) !in us then 0
    else if us[|us| - 1] == Bech32(a) then left - per * (Decodable(us) - 1)
    else per
  }

  lemma OneShareMore(per: nat, d: int)
    ensures per * (1 + d) == per + per * d
  {
  }

  lemma ShareForNext(us: seq<Address>, per: nat, left: int, amount: int, a: nat)
    requires us != [] && Distinct(us) && us[0].Bech32? && amount == if |us| == 1 then left else per
    ensures ShareFor(us, per, left, a) ==
            if us[0] == Bech32(a) then amount else ShareFor(us[1..], per, left - amount, a)
  {
    assert us == [us[0]] + us[1..];
    OneShareMore(per, Decodable(us[1..]) - 1);
  }

  lemma ShareForSkip(us: seq<Address>, per: nat, left: int, a: nat)
    requires us != [] && !us[0].Bech32?
    ensures ShareFor(us, per, left, a) == ShareFor(us[1..], per, left, a)
  {
    assert us == [us[0]] + us[1..];
  }

  /** What each wallet gains from the shares. */
  lemma {:induction false} SharesReach(us: seq<Address>, per: nat, total: nat, given: nat, b: Bank, refused: set<nat>,
                                       a: nat)
    requires Distinct(us) && given + per * |us| <= total && PayAll(b, Shares(us, per, total, given), refused).Some?
    ensures var b' := PayAll(b, Shares(us, per, total, given), refused).value;
            Get(b'.wallets, a) == Get(b.wallets, a) + ShareFor(us, per, total - given, a)
    decreases |us|
  {
    if us != [] {
      if !us[0].Bech32? {
        SkipShare(us, per, total, given);
        ShareForSkip(us, per, total - given, a);
        SharesReach(us[1..], per, total, given, b, refused, a);
      } else {
        NextShare(us, per, total, given, b, refused);
        assert per * |us| >= 0;
        var amount: nat := if |us| == 1 then total - given else per;
        ShareForNext(us, per, total - given, amount, a);
        assert Bech32(a) == us[0] ==> Bech32(a) !in us[1..];
        var b1 := if amount == 0 then b else Send(b, Payout(us[0].account, amount), refused).value;
        SharesReach(us[1..], per, total, given + amount, b1, refused, a);
      }
    }
  }

  /** What an account gets out of a verifier pool: of n unique verifiers, every decodable one before the last
      gets a n-th of it, the last one what they leave, and nobody else anything. */
  ghost function VerifierGets(total: nat, verifiers: seq<Address>, a: nat): int {
    var us := Unique(verifiers);
    if us == [] then 0 else ShareFor(us, total / |us|, total, a)
  }

  /** And what all of them get together. */
  ghost function VerifiersGet(total: nat, verifiers: seq<Address>): int {
    var us := Unique(verifiers);
    if us == [] then 0 else if us[|us| - 1].Bech32? then total else total / |us| * Decodable(us)
  }

  lemma EvenShares(total: nat, verifiers: seq<Address>, b: Bank, refused: set<nat>, a: nat)
    requires PayAll(b, VerifierPayouts(total, verifiers), refused).Some?
    ensures var b' := PayAll(b, VerifierPayouts(total, verifiers), refused).value;
            Get(b'.wallets, a) == Get(b.wallets, a) + VerifierGets(total, verifiers, a)
  {
    var us := Unique(verifiers);
    DedupSpec(verifiers, {});
    if us != [] {
      DivideThenMultiply(total, |us|);
      var per := total / |us|;
      assert per * |us| <= total;
      SharesReach(us, per, total, 0, b, refused, a);
    }
  }

  lemma NoShares(us: seq<Address>, per: nat)
    requires |us| == 1 && !us[0].Bech32?
    ensures us[1..] == [] && per * Decodable(us) == 0
  {
    assert Decodable(us[1..]) == 0;
  }

  lemma {:induction false} SharesTotal(us: seq<Address>, per: nat, total: nat, given: nat)
    requires us != [] && given + per * |us| <= total
    ensures given + Sum(Shares(us, per, total, given)) ==
            if us[|us| - 1].Bech32? then total else given + per * Decodable(us)
    decreases |us|
  {
    if us[|us| - 1].Bech32? {
      SharesSum(us, per, total, given);
    } else {
      assert us == [us[0]] + us[1..];
      if !us[0].Bech32? {
        SkipShare(us, per, total, given);
        if |us| > 1 { SharesTotal(us[1..], per, total, given); } else { NoShares(us, per); }
      } else {
        NextShare(us, per, total, given, Bank(0, map[]), {});
        SharesTotal(us[1..], per, total, given + per);
        OneShareMore(per, Decodable(us[1..]));
      }
    }
  }

  lemma VerifiersTotal(total: nat, verifiers: seq<Address>)
    ensures Sum(VerifierPayouts(total, verifiers)) == VerifiersGet(total, verifiers)
  {
    var us := Unique(verifiers);
    if us != [] {
      DivideThenMultiply(total, |us|);
      var per := total / |us|;
      assert per * |us| <= total;
      SharesTotal(us, per, total, 0);
    }
  }

  // ---------- The two splits ----------

  /** What the worker is left with after verifiers and fund. */
  function WorkerShare(fee: nat, verifiers: seq<Address>, r: Ratios): nat
    requires r.verifier + r.fund <= 1000
  {
    VerifierPayoutsSum(PerMille(fee, r.verifier), verifiers);
    PoolsFit(fee, r.verifier, r.fund);
    fee - Sum(VerifierPayouts(PerMille(fee, r.verifier), verifiers)) - PerMille(fee, r.fund)
  }

  lemma PoolsFit(fee: nat, a: nat, b: nat)
    requires a + b <= 1000
    ensures PerMille(fee, a) + PerMille(fee, b) <= fee
  {
    assert fee * a + fee * b == fee * (a + b) <= fee * 1000;
  }

  function SuccessPayouts(fee: nat, worker: nat, verifiers: seq<Address>, r: Ratios): seq<Payout>
    requires r.verifier + r.fund <= 1000
  {
    var share := WorkerShare(fee, verifiers, r);
    VerifierPayouts(PerMille(fee, r.verifier), verifiers) +
    if share > 0 then [Payout(worker, share)] else []
  }

  function FailPool(fee: nat, r: Ratios): nat
    requires 0 < r.verifier + r.fund
  {
    fee * r.verifier / (r.verifier + r.fund)
  }

  function FailPayouts(fee: nat, verifiers: seq<Address>, r: Ratios): seq<Payout>
    requires 0 < r.verifier + r.fund
  {
    VerifierPayouts(FailPool(fee, r), verifiers)
  }

  /** A success split pays out the whole fee except the fund's share, for every verifier list. */
  lemma SuccessSplitExact(fee: nat, worker: nat, verifiers: seq<Address>, r: Ratios)
    requires ValidRatios(r)
    ensures Sum(SuccessPayouts(fee, worker, verifiers, r)) == fee - PerMille(fee, r.fund)
  {
    var share := WorkerShare(fee, verifiers, r);
    var last := if share > 0 then [Payout(worker, share)] else [];
    SumAppend(VerifierPayouts(PerMille(fee, r.verifier), verifiers), last);
    assert Sum(last) == share;
  }

  /** The worker always gets at least the executor ratio, which is what a fraud proof claws back. */
  lemma WorkerShareAtLeastExecutor(fee: nat, verifiers: seq<Address>, r: Ratios)
    requires ValidRatios(r)
    ensures WorkerShare(fee, verifiers, r) >= PerMille(fee, r.executor)
  {
    VerifierPayoutsSum(PerMille(fee, r.verifier), verifiers);
    assert fee * r.executor + fee * r.verifier + fee * r.fund == fee * 1000 by {
      assert fee * (r.executor + r.verifier + r.fund) == fee * 1000;
    }
  }

  lemma QuotientAtMost(fee: nat, a: nat, b: nat)
    requires a <= b && 0 < b
    ensures fee * a / b <= fee
  {
    var q := fee * a / b;
    assert q * b <= fee * a <= fee * b by { MulMonotone(a, b, fee); }
    MulStep(fee, q, b);
  }

  /** A fail split pays at most the verifiers' part of the fail fee, hence at most the fee. */
  lemma FailSplitBound(fee: nat, verifiers: seq<Address>, r: Ratios)
    requires ValidRatios(r)
    ensures Sum(FailPayouts(fee, verifiers, r)) <= FailPool(fee, r) <= fee
    ensures var us := Unique(verifiers);
            us != [] && us[|us| - 1].Bech32? ==> Sum(FailPayouts(fee, verifiers, r)) == FailPool(fee, r)
  {
    VerifierPayoutsSum(FailPool(fee, r), verifiers);
    QuotientAtMost(fee, r.verifier, r.verifier + r.fund);
  }

  // ---------- The splits, told by wallets ----------

  /** A fee paid out for a success: the verifiers share their ratio, the fund keeps its ratio, the worker gets
      the rest, and no other wallet changes. */
  ghost predicate SplitAsSuccess(b: Bank, b2: Bank, fee: nat, worker: nat, verifiers: seq<Address>, r: Ratios) {
    var forVerifiers, forFund := fee * r.verifier / 1000, fee * r.fund / 1000;
    && b2.pool == b.pool - (fee - forFund)
    && forall a :: Get(b2.wallets, a) ==
         Get(b.wallets, a) + VerifierGets(forVerifiers, verifiers, a)
         + if a == worker then fee - forFund - VerifiersGet(forVerifiers, verifiers) else 0
  }

  /** And for a failure: the verifiers share their part of the two ratios, and nobody else gets anything. */
  ghost predicate SplitAsFailure(b: Bank, b2: Bank, fee: nat, verifiers: seq<Address>, r: Ratios)
    requires r.verifier + r.fund > 0
  {
    var forVerifiers := fee * r.verifier / (r.verifier + r.fund);
    && b2.pool == b.pool - VerifiersGet(forVerifiers, verifiers)
    && forall a :: Get(b2.wallets, a) == Get(b.wallets, a) + VerifierGets(forVerifiers, verifiers, a)
  }

  lemma WorkerPaid(b: Bank, worker: nat, share: nat, refused: set<nat>, a: nat)
    requires var last := if share > 0 then [Payout(worker, share)] else []; PayAll(b, last, refused).Some?
    ensures var last := if share > 0 then [Payout(worker, share)] else [];
            Get(PayAll(b, last, refused).value.wallets, a) == Get(b.wallets, a) + if a == worker then share else 0
  {
    if share > 0 { assert [Payout(worker, share)][1..] == []; }
  }

  /** A success split pays exactly these. */
  lemma SuccessReaches(b: Bank, fee: nat, worker: nat, verifiers: seq<Address>, r: Ratios, refused: set<nat>)
    requires ValidRatios(r) && PayAll(b, SuccessPayouts(fee, worker, verifiers, r), refused).Some?
    ensures SplitAsSuccess(b, PayAll(b, SuccessPayouts(fee, worker, verifiers, r), refused).value, fee, worker,
                           verifiers, r)
  {
    var total, share := PerMille(fee, r.verifier), WorkerShare(fee, verifiers, r);
    var ps, last := VerifierPayouts(total, verifiers), if share > 0 then [Payout(worker, share)] else [];
    PayAllAppend(b, ps, last, refused);
    PayAllConserves(b, ps + last, refused);
    SuccessSplitExact(fee, worker, verifiers, r);
    VerifiersTotal(total, verifiers);
    var b1 := PayAll(b, ps, refused).value;
    forall a ensures Get(PayAll(b1, last, refused).value.wallets, a) ==
                     Get(b.wallets, a) + VerifierGets(total, verifiers, a) + if a == worker then share else 0
    {
      EvenShares(total, verifiers, b, refused, a);
      WorkerPaid(b1, worker, share, refused, a);
    }
  }

  lemma FailureReaches(b: Bank, fee: nat, verifiers: seq<Address>, r: Ratios, refused: set<nat>)
    requires ValidRatios(r) && PayAll(b, FailPayouts(fee, verifiers, r), refused).Some?
    ensures SplitAsFailure(b, PayAll(b, FailPayouts(fee, verifiers, r), refused).value, fee, verifiers, r)
  {
    var total := FailPool(fee, r);
    VerifiersTotal(total, verifiers);
    PayAllConserves(b, FailPayouts(fee, verifiers, r), refused);
    forall a { EvenShares(total, verifiers, b, refused, a); }
  }
}
