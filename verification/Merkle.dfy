/** Merkle roots over batch entries (x/settlement/keeper/da_client.go). Settlement and reservation batches
    use the same construction, so the entry type is a parameter, with its JSON encoding; the hash is a
    function on byte strings, and hashPair hashes the concatenation of two hashes. */
module Merkle {
  import opened Sums
  import opened FeeSplit
  import opened Ledger

  type Hash = seq<byte>
  type Hasher = seq<byte> -> Hash

  // ---------- The construction ----------

  /** The string hashed for the pair at position k: an odd last hash is paired with itself. */
  function Join(hs: seq<Hash>, k: nat): seq<byte>
    requires k < (|hs| + 1) / 2
  {
    hs[2 * k] + hs[if 2 * k + 1 < |hs| then 2 * k + 1 else 2 * k]
  }

  /** One level up. */
  function Level(hs: seq<Hash>, h: Hasher): (next: seq<Hash>)
    ensures |next| == (|hs| + 1) / 2
  {
    if hs == [] then []
    else if |hs| == 1 then [h(hs[0] + hs[0])]
    else [h(hs[0] + hs[1])] + Level(hs[2..], h)
  }

  lemma {:induction false} LevelAt(hs: seq<Hash>, h: Hasher, k: nat)
    requires k < (|hs| + 1) / 2
    ensures Level(hs, h)[k] == h(Join(hs, k))
    decreases k
  {
    if k > 0 {
      LevelAt(hs[2..], h, k - 1);
      assert Join(hs[2..], k - 1) == Join(hs, k);
    }
  }

  function Root(hs: seq<Hash>, h: Hasher): Hash
    requires hs != []
    decreases |hs|
  {
    if |hs| == 1 then hs[0] else Root(Level(hs, h), h)
  }

  function Leaves<E>(es: seq<E>, json: E -> seq<byte>, h: Hasher): (hs: seq<Hash>)
    ensures |hs| == |es| && forall i :: 0 <= i < |es| ==> hs[i] == h(json(es[i]))
  {
    seq(|es|, i requires 0 <= i < |es| => h(json(es[i])))
  }

  function MerkleRoot<E>(es: seq<E>, json: E -> seq<byte>, h: Hasher): Option<Hash> {
    if es == [] then None else Some(Root(Leaves(es, json, h), h))
  }

  method NextLevel(hs: seq<Hash>, h: Hasher) returns (next: seq<Hash>)
    ensures next == Level(hs, h)
  {
    next := [];
    var i := 0;
    while i < |hs|
      invariant i == 2 * |next| && |next| <= (|hs| + 1) / 2
      invariant next == Level(hs, h)[..|next|]
    {
      LevelAt(hs, h, |next|);
      if i + 1 < |hs| {
        next := next + [h(hs[i] + hs[i + 1])];
      } else {
        next := next + [h(hs[i] + hs[i])];
      }
      i := i + 2;
    }
  }

  method ComputeMerkleRoot<E>(es: seq<E>, json: E -> seq<byte>, h: Hasher) returns (root: Option<Hash>)
    ensures root == MerkleRoot(es, json, h)
  {
    if |es| == 0 { return None; }
    var hashes: seq<Hash> := [];
    for i := 0 to |es|
      invariant hashes == Leaves(es[..i], json, h)
    {
      hashes := hashes + [h(json(es[i]))];
    }
    assert es[..|es|] == es;
    while |hashes| > 1
      invariant hashes != [] && Root(hashes, h) == Root(Leaves(es, json, h), h)
      decreases |hashes|
    {
      hashes := NextLevel(hashes, h);
    }
    return Some(hashes[0]);
  }

  method VerifyMerkleRoot<E>(root: Hash, es: seq<E>, json: E -> seq<byte>, h: Hasher) returns (ok: bool)
    ensures ok <==> MerkleRoot(es, json, h) == Some(root)
  {
    if |es| == 0 { return false; }
    var computed := ComputeMerkleRoot(es, json, h);
    var want := computed.value;
    if |root| != |want| { return false; }
    for i := 0 to |root|
      invariant root[..i] == want[..i]
    {
      if root[i] != want[i] { return false; }
    }
    assert root == root[..|root|] && want == want[..|want|];
    return true;
  }

  // ---------- The root as a tree ----------

  /** The tree over 2^d hashes, from the top: the hash of the roots of its two halves. */
  ghost function Tree(hs: seq<Hash>, h: Hasher, d: nat): Hash
    requires |hs| == Pow2(d)
  {
    if d == 0 then hs[0] else h(Tree(hs[..|hs| / 2], h, d - 1) + Tree(hs[|hs| / 2..], h, d - 1))
  }

  lemma {:induction false} LevelAppend(a: seq<Hash>, b: seq<Hash>, h: Hasher)
    requires |a| % 2 == 0
    ensures Level(a + b, h) == Level(a, h) + Level(b, h)
  {
    if a == [] {
      assert a + b == b;
    } else {
      assert (a + b)[2..] == a[2..] + b;
      LevelAppend(a[2..], b, h);
    }
  }

  lemma TreeOfTwo(hs: seq<Hash>, h: Hasher)
    requires |hs| == 2
    ensures Pow2(1) == 2 && Level(hs, h) == [h(hs[0] + hs[1])] && Tree(hs, h, 1) == h(hs[0] + hs[1])
  {
    assert hs[2..] == [];
    assert Pow2(0) == 1 && Tree(hs[..1], h, 0) == hs[0] && Tree(hs[1..], h, 0) == hs[1];
  }

  lemma TreeOfHalves(a: seq<Hash>, b: seq<Hash>, h: Hasher, d: nat)
    requires |a| == |b| == Pow2(d)
    ensures |a + b| == Pow2(d + 1) && Tree(a + b, h, d + 1) == h(Tree(a, h, d) + Tree(b, h, d))
  {
    assert (a + b)[..|a + b| / 2] == a && (a + b)[|a + b| / 2..] == b;
  }

  /** Halves that agree one level up agree when put together. */
  lemma TreeStep(a: seq<Hash>, b: seq<Hash>, up: seq<Hash>, vp: seq<Hash>, h: Hasher, d: nat)
    requires |a| == |b| == Pow2(d + 1) && |up| == |vp| == Pow2(d)
    requires Tree(up, h, d) == Tree(a, h, d + 1) && Tree(vp, h, d) == Tree(b, h, d + 1)
    ensures |up + vp| == Pow2(d + 1) && |a + b| == Pow2(d + 2) && Tree(up + vp, h, d + 1) == Tree(a + b, h, d + 2)
  {
    TreeOfHalves(a, b, h, d + 1);
    TreeOfHalves(up, vp, h, d);
  }

  lemma HalvesOf(hs: seq<Hash>, d: nat) returns (a: seq<Hash>, b: seq<Hash>)
    requires |hs| == Pow2(d + 2)
    ensures hs == a + b && |a| == |b| == Pow2(d + 1) && |a| % 2 == 0
  {
    assert Pow2(d + 2) == 2 * Pow2(d + 1) && Pow2(d + 1) == 2 * Pow2(d);
    a, b := hs[..Pow2(d + 1)], hs[Pow2(d + 1)..];
  }

  lemma {:induction false} TreeLevel(hs: seq<Hash>, h: Hasher, d: nat)
    requires |hs| == Pow2(d + 1)
    ensures |Level(hs, h)| == Pow2(d) && Tree(Level(hs, h), h, d) == Tree(hs, h, d + 1)
    decreases d
  {
    if d == 0 {
      TreeOfTwo(hs, h);
    } else {
      var a, b := HalvesOf(hs, d - 1);
      TreeLevel(a, h, d - 1);
      TreeLevel(b, h, d - 1);
      TreeStep(a, b, Level(a, h), Level(b, h), h, d - 1);
      LevelAppend(a, b, h);
    }
  }

  /** Level by level is the same as from the top. */
  lemma {:induction false} RootIsTree(hs: seq<Hash>, h: Hasher, d: nat)
    requires |hs| == Pow2(d)
    ensures Root(hs, h) == Tree(hs, h, d)
    decreases d
  {
    if d > 0 {
      TreeLevel(hs, h, d - 1);
      RootIsTree(Level(hs, h), h, d - 1);
    }
  }

  // ---------- Collisions ----------

  /** Every hash is `n` bytes long. */
  ghost predicate Digest(h: Hasher, n: nat) { forall x :: |h(x)| == n }

  ghost predicate Sized(hs: seq<Hash>, n: nat) { forall i :: 0 <= i < |hs| ==> |hs[i]| == n }

  /** No two different strings of the set have the same hash. */
  ghost predicate CollisionFree(h: Hasher, strings: set<seq<byte>>) {
    forall x, y :: x in strings && y in strings && h(x) == h(y) ==> x == y
  }

  ghost function Joins(hs: seq<Hash>): set<seq<byte>> {
    set k | 0 <= k < (|hs| + 1) / 2 :: Join(hs, k)
  }

  /** The strings hashed on the way from the hashes to their root. */
  ghost function Hashed(hs: seq<Hash>, h: Hasher): set<seq<byte>>
    decreases |hs|
  {
    if |hs| <= 1 then {} else Joins(hs) + Hashed(Level(hs, h), h)
  }

  /** All the strings hashed for the root of a list of entries. */
  ghost function Strings<E>(es: seq<E>, json: E -> seq<byte>, h: Hasher): set<seq<byte>> {
    (set i | 0 <= i < |es| :: json(es[i])) + Hashed(Leaves(es, json, h), h)
  }

  lemma LevelSized(hs: seq<Hash>, h: Hasher, n: nat)
    requires Digest(h, n)
    ensures Sized(Level(hs, h), n)
  {
    forall k | 0 <= k < |Level(hs, h)| ensures |Level(hs, h)[k]| == n {
      LevelAt(hs, h, k);
    }
  }

  lemma PairBinds(a: seq<Hash>, b: seq<Hash>, k: nat, n: nat)
    requires |a| == |b| && k < (|a| + 1) / 2 && Sized(a, n) && Sized(b, n) && Join(a, k) == Join(b, k)
    ensures a[2 * k] == b[2 * k] && (2 * k + 1 < |a| ==> a[2 * k + 1] == b[2 * k + 1])
  {
    var x, y := Join(a, k), Join(b, k);
    assert x[..n] == a[2 * k] && y[..n] == b[2 * k];
    if 2 * k + 1 < |a| { assert x[n..] == a[2 * k + 1] && y[n..] == b[2 * k + 1]; }
  }

  lemma JoinsBind(a: seq<Hash>, b: seq<Hash>, n: nat)
    requires |a| == |b| && Sized(a, n) && Sized(b, n)
    requires forall k :: 0 <= k < (|a| + 1) / 2 ==> Join(a, k) == Join(b, k)
    ensures a == b
  {
    forall i | 0 <= i < |a| ensures a[i] == b[i] {
      var k := i / 2;
      assert i == 2 * k || i == 2 * k + 1;
      PairBinds(a, b, k, n);
    }
  }

  lemma LevelJoins(a: seq<Hash>, b: seq<Hash>, h: Hasher, strings: set<seq<byte>>, k: nat)
    requires |a| == |b| && k < (|a| + 1) / 2 && Level(a, h) == Level(b, h)
    requires CollisionFree(h, strings) && Joins(a) <= strings && Joins(b) <= strings
    ensures Join(a, k) == Join(b, k)
  {
    LevelAt(a, h, k);
    LevelAt(b, h, k);
    assert Join(a, k) in Joins(a) && Join(b, k) in Joins(b);
  }

  /** Equally long levels with the same next level are equal, odd last hashes included. */
  lemma LevelBinds(a: seq<Hash>, b: seq<Hash>, h: Hasher, n: nat, strings: set<seq<byte>>)
    requires |a| == |b| && Sized(a, n) && Sized(b, n) && Level(a, h) == Level(b, h)
    requires CollisionFree(h, strings) && Joins(a) <= strings && Joins(b) <= strings
    ensures a == b
  {
    forall k | 0 <= k < (|a| + 1) / 2 ensures Join(a, k) == Join(b, k) { LevelJoins(a, b, h, strings, k); }
    JoinsBind(a, b, n);
  }

  lemma {:induction false} RootBinds(a: seq<Hash>, b: seq<Hash>, h: Hasher, n: nat, strings: set<seq<byte>>)
    requires |a| == |b| && a != [] && Sized(a, n) && Sized(b, n) && Root(a, h) == Root(b, h)
    requires Digest(h, n) && CollisionFree(h, strings) && Hashed(a, h) <= strings && Hashed(b, h) <= strings
    ensures a == b
    decreases |a|
  {
    if |a| > 1 {
      LevelSized(a, h, n);
      LevelSized(b, h, n);
      RootBinds(Level(a, h), Level(b, h), h, n, strings);
      LevelBinds(a, b, h, n, strings);
    }
  }

  ghost predicate Injective<E(!new)>(json: E -> seq<byte>) {
    forall a, b :: json(a) == json(b) ==> a == b
  }

  /** Unless two of the strings hashed collide, equal encodings of leaves mean equal entries. */
  lemma LeavesBind<E(!new)>(a: seq<E>, b: seq<E>, json: E -> seq<byte>, h: Hasher, strings: set<seq<byte>>)
    requires Injective(json) && CollisionFree(h, strings) && Leaves(a, json, h) == Leaves(b, json, h)
    requires forall i :: 0 <= i < |a| ==> json(a[i]) in strings
    requires forall i :: 0 <= i < |b| ==> json(b[i]) in strings
    ensures a == b
  {
    forall i | 0 <= i < |a| ensures a[i] == b[i] {
      assert Leaves(a, json, h)[i] == Leaves(b, json, h)[i];
    }
  }

  /** Two lists of the same length have the same root if and only if they are equal, unless two different
      strings among those hashed for these very roots have the same hash. */
  lemma MerkleBinding<E(!new)>(a: seq<E>, b: seq<E>, json: E -> seq<byte>, h: Hasher, n: nat)
    requires Digest(h, n) && Injective(json) && |a| == |b|
    requires CollisionFree(h, Strings(a, json, h) + Strings(b, json, h))
    ensures MerkleRoot(a, json, h) == MerkleRoot(b, json, h) <==> a == b
  {
    if a != [] && MerkleRoot(a, json, h) == MerkleRoot(b, json, h) {
      var strings := Strings(a, json, h) + Strings(b, json, h);
      RootBinds(Leaves(a, json, h), Leaves(b, json, h), h, n, strings);
      LeavesBind(a, b, json, h, strings);
    }
  }

  // ---------- Lists of different length ----------

  /** How many levels the root is above `size` hashes. */
  function Depth(size: nat): nat
    requires size > 0
  {
    if size == 1 then 0 else 1 + Depth((size + 1) / 2)
  }

  /** Where position i of a list filled up to 2^d comes from, among `size` hashes: a place that an odd level
      does not have stands for the last one of that level. */
  function Source(i: nat, size: nat, d: nat): (r: nat)
    requires size > 0
    ensures r < size
    decreases d
  {
    if d == 0 then 0 else
      var child := 2 * Source(i / 2, (size + 1) / 2, d - 1) + i % 2;
      if child < size then child else size - 1
  }

  function Filled<T>(xs: seq<T>, d: nat): (r: seq<T>)
    requires xs != []
    ensures |r| == Pow2(d) && forall i :: 0 <= i < |r| ==> r[i] == xs[Source(i, |xs|, d)]
  {
    seq(Pow2(d), i requires 0 <= i < Pow2(d) => xs[Source(i, |xs|, d)])
  }

  lemma {:induction false} DepthBracket(size: nat)
    requires size > 0
    ensures size <= Pow2(Depth(size)) && (size > 1 ==> Pow2(Depth(size) - 1) < size)
  {
    if size > 1 { DepthBracket((size + 1) / 2); }
  }

  /** What the root is computed from: the list, with the last hash of each odd level repeated. */
  function Full<T>(xs: seq<T>): (r: seq<T>)
    requires xs != []
  {
    Filled(xs, Depth(|xs|))
  }

  lemma {:induction false} SourceOfEntry(i: nat, size: nat, d: nat)
    requires i < size <= Pow2(d)
    ensures Source(i, size, d) == i
    decreases d
  {
    if d > 0 { SourceOfEntry(i / 2, (size + 1) / 2, d - 1); }
  }

  /** Filling up adds nothing but entries of the list, behind them. */
  lemma FullSpec<T>(xs: seq<T>)
    requires xs != []
    ensures xs <= Full(xs) && |Full(xs)| == Pow2(Depth(|xs|)) && forall x :: x in Full(xs) ==> x in xs
  {
    DepthBracket(|xs|);
    forall i | 0 <= i < |xs| ensures Full(xs)[i] == xs[i] { SourceOfEntry(i, |xs|, Depth(|xs|)); }
  }

  lemma SourceOfPair(k: nat, size: nat, d: nat)
    requires size > 0 && d > 0
    ensures var m := Source(k, (size + 1) / 2, d - 1);
            && Source(2 * k, size, d) == 2 * m
            && Source(2 * k + 1, size, d) == if 2 * m + 1 < size then 2 * m + 1 else 2 * m
  {
    assert 2 * k / 2 == k && (2 * k + 1) / 2 == k;
  }

  lemma SameJoin(f: seq<Hash>, k: nat, hs: seq<Hash>, m: nat)
    requires 2 * k + 1 < |f| && m < (|hs| + 1) / 2
    requires f[2 * k] == hs[2 * m] && f[2 * k + 1] == hs[if 2 * m + 1 < |hs| then 2 * m + 1 else 2 * m]
    ensures Join(f, k) == Join(hs, m)
  {
  }

  lemma FilledJoin(hs: seq<Hash>, d: nat, k: nat)
    requires hs != [] && d > 0 && k < Pow2(d - 1)
    ensures Join(Filled(hs, d), k) == Join(hs, Source(k, (|hs| + 1) / 2, d - 1))
  {
    FilledAt(hs, d, 2 * k);
    FilledAt(hs, d, 2 * k + 1);
    JoinFromSource(Filled(hs, d), hs, d, k);
  }

  lemma FilledAt<T>(xs: seq<T>, d: nat, i: nat)
    requires xs != [] && i < Pow2(d)
    ensures |Filled(xs, d)| == Pow2(d) && Filled(xs, d)[i] == xs[Source(i, |xs|, d)]
  {
  }

  lemma JoinFromSource(f: seq<Hash>, hs: seq<Hash>, d: nat, k: nat)
    requires hs != [] && d > 0 && 2 * k + 1 < |f|
    requires f[2 * k] == hs[Source(2 * k, |hs|, d)] && f[2 * k + 1] == hs[Source(2 * k + 1, |hs|, d)]
    ensures Join(f, k) == Join(hs, Source(k, (|hs| + 1) / 2, d - 1))
  {
    SourceOfPair(k, |hs|, d);
    SameJoin(f, k, hs, Source(k, (|hs| + 1) / 2, d - 1));
  }

  /** The level above a filled list is the level above the list, filled. */
  lemma FilledLevel(hs: seq<Hash>, d: nat, h: Hasher)
    requires hs != [] && d > 0
    ensures Level(Filled(hs, d), h) == Filled(Level(hs, h), d - 1)
  {
    var up, f := Level(Filled(hs, d), h), Filled(Level(hs, h), d - 1);
    forall k | 0 <= k < Pow2(d - 1) ensures up[k] == f[k] {
      FilledJoin(hs, d, k);
      LevelAt(Filled(hs, d), h, k);
      LevelAt(hs, h, Source(k, (|hs| + 1) / 2, d - 1));
    }
  }

  /** And no other strings are hashed for it. */
  lemma FilledJoins(hs: seq<Hash>, d: nat)
    requires hs != [] && d > 0
    ensures Joins(Filled(hs, d)) <= Joins(hs)
  {
    forall x | x in Joins(Filled(hs, d)) ensures x in Joins(hs) {
      var k :| 0 <= k < Pow2(d - 1) && x == Join(Filled(hs, d), k);
      FilledJoin(hs, d, k);
    }
  }

  /** Filling up changes neither the root nor the strings hashed for it. */
  lemma {:induction false} FullRoot(hs: seq<Hash>, h: Hasher)
    requires hs != []
    ensures Root(Full(hs), h) == Root(hs, h) && Hashed(Full(hs), h) <= Hashed(hs, h)
    decreases |hs|
  {
    if |hs| == 1 {
      assert Full(hs) == hs;
    } else {
      FullLevel(hs, h);
      FullRoot(Level(hs, h), h);
      OneLevelUp(Full(hs), h);
      OneLevelUp(hs, h);
    }
  }

  lemma DepthAbove(size: nat) returns (d: nat)
    requires size > 1
    ensures d > 0 && Depth(size) == d && Depth((size + 1) / 2) == d - 1 && Pow2(d) > 1
  {
    d := Depth(size);
  }

  lemma FullLevel(hs: seq<Hash>, h: Hasher)
    requires |hs| > 1
    ensures |Full(hs)| > 1 && Level(Full(hs), h) == Full(Level(hs, h)) && Joins(Full(hs)) <= Joins(hs)
  {
    var d := DepthAbove(|hs|);
    FilledLevel(hs, d, h);
    FilledJoins(hs, d);
  }

  lemma OneLevelUp(hs: seq<Hash>, h: Hasher)
    requires |hs| > 1
    ensures Root(hs, h) == Root(Level(hs, h), h) && Hashed(hs, h) == Joins(hs) + Hashed(Level(hs, h), h)
  {
  }

  /** A full list of hashes, for whose root only the given strings are hashed. */
  ghost predicate Firm(hs: seq<Hash>, h: Hasher, n: nat, d: nat, strings: set<seq<byte>>) {
    hs != [] && |hs| == Pow2(d) && Sized(hs, n) && Hashed(hs, h) <= strings
  }

  lemma LevelFirm(hs: seq<Hash>, h: Hasher, n: nat, d: nat, strings: set<seq<byte>>)
    requires d > 0 && Firm(hs, h, n, d, strings) && Digest(h, n)
    ensures Firm(Level(hs, h), h, n, d - 1, strings) && Root(Level(hs, h), h) == Root(hs, h)
  {
    OneLevelUp(hs, h);
    LevelSized(hs, h, n);
  }

  /** What is above the leaves is the hash of a string twice as long as a hash. */
  lemma LevelIsNoLeaf(hs: seq<Hash>, h: Hasher, n: nat, d: nat, leaf: seq<byte>, strings: set<seq<byte>>)
    requires d > 0 && Firm(hs, h, n, d, strings) && CollisionFree(h, strings)
    requires leaf in strings && |leaf| != 2 * n
    ensures Level(hs, h) != [] && Level(hs, h)[0] != h(leaf)
  {
    LevelAt(hs, h, 0);
    OneLevelUp(hs, h);
    assert Join(hs, 0) in Joins(hs);
    assert Join(hs, 0) in strings && |Join(hs, 0)| == 2 * n;
  }

  lemma FirmBinds(a: seq<Hash>, b: seq<Hash>, h: Hasher, n: nat, d: nat, strings: set<seq<byte>>)
    requires Firm(a, h, n, d, strings) && Firm(b, h, n, d, strings) && Digest(h, n) && CollisionFree(h, strings)
    ensures Root(a, h) == Root(b, h) ==> a == b
  {
    if Root(a, h) == Root(b, h) { RootBinds(a, b, h, n, strings); }
  }

  lemma OneDeeperDiffers(a: seq<Hash>, b: seq<Hash>, h: Hasher, n: nat, d: nat, leaf: seq<byte>,
                         strings: set<seq<byte>>)
    requires Firm(a, h, n, d, strings) && Firm(b, h, n, d + 1, strings) && Digest(h, n) && CollisionFree(h, strings)
    requires leaf in strings && |leaf| != 2 * n && a[0] == h(leaf)
    ensures Root(a, h) != Root(b, h)
  {
    LevelFirm(b, h, n, d + 1, strings);
    LevelIsNoLeaf(b, h, n, d + 1, leaf, strings);
    FirmBinds(a, Level(b, h), h, n, d, strings);
  }

  /** The level of a full list that has 2^d hashes. */
  lemma {:induction false} LevelOfSize(b: seq<Hash>, h: Hasher, n: nat, d: nat, e: nat, strings: set<seq<byte>>)
    returns (up: seq<Hash>)
    requires d <= e && Firm(b, h, n, e, strings) && Digest(h, n)
    ensures Firm(up, h, n, d, strings) && Root(up, h) == Root(b, h)
    decreases e
  {
    up := b;
    if d < e {
      LevelFirm(b, h, n, e, strings);
      up := LevelOfSize(Level(b, h), h, n, d, e - 1, strings);
    }
  }

  /** Full lists of different depth have different roots if no leaf is the hash of a string that long. */
  lemma DeeperDiffers(a: seq<Hash>, b: seq<Hash>, h: Hasher, n: nat, d: nat, e: nat, leaf: seq<byte>,
                      strings: set<seq<byte>>)
    requires Firm(a, h, n, d, strings) && Firm(b, h, n, e, strings) && Digest(h, n) && CollisionFree(h, strings)
    requires d < e && leaf in strings && |leaf| != 2 * n && a[0] == h(leaf)
    ensures Root(a, h) != Root(b, h)
  {
    var up := LevelOfSize(b, h, n, d + 1, e, strings);
    OneDeeperDiffers(a, up, h, n, d, leaf, strings);
  }

  lemma FilledLeaves<E>(es: seq<E>, d: nat, json: E -> seq<byte>, h: Hasher)
    requires es != []
    ensures Leaves(Filled(es, d), json, h) == Filled(Leaves(es, json, h), d)
  {
  }

  /** Leaves, filled up. */
  ghost predicate FullOf<E>(es: seq<E>, json: E -> seq<byte>, h: Hasher, n: nat, hs: seq<Hash>, strings: set<seq<byte>>)
    requires es != []
  {
    && hs == Leaves(Full(es), json, h) && |hs| == Pow2(Depth(|es|)) && Sized(hs, n)
    && Root(hs, h) == Root(Leaves(es, json, h), h) && Hashed(hs, h) <= strings
    && (forall i :: 0 <= i < |hs| ==> json(Full(es)[i]) in strings && Full(es)[i] in es)
  }

  lemma FullLeaves<E>(es: seq<E>, json: E -> seq<byte>, h: Hasher, n: nat, strings: set<seq<byte>>)
    requires es != [] && Digest(h, n) && Strings(es, json, h) <= strings
    ensures FullOf(es, json, h, n, Leaves(Full(es), json, h), strings)
  {
    FilledLeaves(es, Depth(|es|), json, h);
    FullSpec(es);
    FullRoot(Leaves(es, json, h), h);
    forall i | 0 <= i < |Full(es)| ensures json(Full(es)[i]) in strings && Full(es)[i] in es {
      assert Full(es)[i] in Full(es);
      var k :| 0 <= k < |es| && es[k] == Full(es)[i];
    }
  }

  /** The root of any list is that of the tree over its leaves, filled up. */
  lemma RootFromTheTop(hs: seq<Hash>, h: Hasher)
    requires hs != []
    ensures |Full(hs)| == Pow2(Depth(|hs|)) && Root(hs, h) == Tree(Full(hs), h, Depth(|hs|))
  {
    FullSpec(hs);
    FullRoot(hs, h);
    RootIsTree(Full(hs), h, Depth(|hs|));
  }

  /** Two lists have the same root if and only if they fill up to the same list, unless two of the strings
      hashed collide. Encodings must not be as long as two hashes; those of the chain are longer. */
  lemma SameRootExact<E(!new)>(a: seq<E>, b: seq<E>, json: E -> seq<byte>, h: Hasher, n: nat)
    requires a != [] && b != [] && Digest(h, n) && Injective(json)
    requires CollisionFree(h, Strings(a, json, h) + Strings(b, json, h))
    requires forall e :: e in a || e in b ==> |json(e)| != 2 * n
    ensures MerkleRoot(a, json, h) == MerkleRoot(b, json, h) <==> Full(a) == Full(b)
  {
    var strings := Strings(a, json, h) + Strings(b, json, h);
    var x, y := Leaves(Full(a), json, h), Leaves(Full(b), json, h);
    FullLeaves(a, json, h, n, strings);
    FullLeaves(b, json, h, n, strings);
    var d, e := Depth(|a|), Depth(|b|);
    if d < e { DeeperDiffers(x, y, h, n, d, e, json(Full(a)[0]), strings); }
    if e < d { DeeperDiffers(y, x, h, n, e, d, json(Full(b)[0]), strings); }
    if d == e && Root(x, h) == Root(y, h) {
      RootBinds(x, y, h, n, strings);
      LeavesBind(Full(a), Full(b), json, h, strings);
    }
  }

  /** A longer list that fills up to the same list begins with the shorter one and repeats one of its entries. */
  lemma LongerRepeats<T>(a: seq<T>, b: seq<T>)
    requires a != [] && |a| <= |b| && Full(a) == Full(b)
    ensures a <= b && Depth(|a|) == Depth(|b|) && forall i :: |a| <= i < |b| ==> b[i] in a
  {
    FullSpec(a);
    FullSpec(b);
    PowIsInjective(Depth(|a|), Depth(|b|));
    forall i | |a| <= i < |b| ensures b[i] in a { assert b[i] == Full(a)[i] && Full(a)[i] in Full(a); }
  }

  lemma {:induction false} PowIsInjective(d: nat, e: nat)
    ensures d < e ==> Pow2(d) < Pow2(e)
    ensures Pow2(d) == Pow2(e) ==> d == e
    decreases d + e
  {
    if d > 0 && e > 0 { PowIsInjective(d - 1, e - 1); }
  }

  lemma LongerIsSame<T>(a: seq<T>, b: seq<T>)
    requires a != [] && |a| <= |b| && Full(a) == Full(b)
    requires forall i, j :: 0 <= i < j < |b| ==> b[i] != b[j]
    ensures a == b
  {
    assert |a| < |b| ==> b[|a|] !in b[..|a|];
    LongerRepeats(a, b);
    assert a == b[..|a|];
  }

  /** So lists without repeated entries have the same root if and only if they are equal, whatever their lengths. */
  lemma DistinctEntriesBind<E(!new)>(a: seq<E>, b: seq<E>, json: E -> seq<byte>, h: Hasher, n: nat)
    requires a != [] && b != [] && Digest(h, n) && Injective(json)
    requires CollisionFree(h, Strings(a, json, h) + Strings(b, json, h))
    requires forall e :: e in a || e in b ==> |json(e)| != 2 * n
    requires forall i, j :: 0 <= i < j < |a| ==> a[i] != a[j]
    requires forall i, j :: 0 <= i < j < |b| ==> b[i] != b[j]
    ensures MerkleRoot(a, json, h) == MerkleRoot(b, json, h) <==> a == b
  {
    SameRootExact(a, b, json, h, n);
    if Full(a) == Full(b) {
      if |a| <= |b| { LongerIsSame(a, b); } else { LongerIsSame(b, a); }
    }
  }

  /** Lists of these lengths with the same root. */
  ghost predicate ShareRoot<E>(a: seq<E>, b: seq<E>, m: nat, n: nat, json: E -> seq<byte>, h: Hasher) {
    |a| == m && |b| == n && MerkleRoot(a, json, h) == MerkleRoot(b, json, h)
  }

  /** Lists of two lengths share a root exactly when both lengths round up to the same power of two: if so some
      do, whatever the hash; if not, two of the strings hashed collide. */
  lemma LengthsCollideExact<E(!new)>(x: E, m: nat, n: nat, json: E -> seq<byte>, h: Hasher, w: nat)
    requires m > 0 && n > 0 && Digest(h, w) && Injective(json) && forall e :: |json(e)| != 2 * w
    ensures Depth(m) == Depth(n) ==> exists a, b :: ShareRoot(a, b, m, n, json, h)
    ensures Depth(m) != Depth(n) ==> forall a, b :: ShareRoot(a, b, m, n, json, h) ==>
              !CollisionFree(h, Strings(a, json, h) + Strings(b, json, h))
  {
    if Depth(m) == Depth(n) {
      var a, b := seq(m, _ => x), seq(n, _ => x);
      RootOfCopies(a, x, json, h, w);
      RootOfCopies(b, x, json, h, w);
      assert ShareRoot(a, b, m, n, json, h);
    } else {
      forall a: seq<E>, b: seq<E> | ShareRoot(a, b, m, n, json, h)
        ensures !CollisionFree(h, Strings(a, json, h) + Strings(b, json, h))
      {
        if CollisionFree(h, Strings(a, json, h) + Strings(b, json, h)) { SameRootSameDepth(a, b, json, h, w); }
      }
    }
  }

  lemma SameRootSameDepth<E(!new)>(a: seq<E>, b: seq<E>, json: E -> seq<byte>, h: Hasher, w: nat)
    requires a != [] && b != [] && Digest(h, w) && Injective(json) && forall e :: |json(e)| != 2 * w
    requires CollisionFree(h, Strings(a, json, h) + Strings(b, json, h))
    requires MerkleRoot(a, json, h) == MerkleRoot(b, json, h)
    ensures Depth(|a|) == Depth(|b|)
  {
    SameRootExact(a, b, json, h, w);
    FullSpec(a);
    FullSpec(b);
    PowIsInjective(Depth(|a|), Depth(|b|));
  }

  lemma RootOfCopies<E>(es: seq<E>, x: E, json: E -> seq<byte>, h: Hasher, w: nat)
    requires es != [] && Digest(h, w) && forall i :: 0 <= i < |es| ==> es[i] == x
    ensures MerkleRoot(es, json, h) == MerkleRoot(seq(Pow2(Depth(|es|)), _ => x), json, h)
  {
    FullOfOne(es, x);
    FullSpec(es);
    FullLeaves(es, json, h, w, Strings(es, json, h));
  }

  lemma FullOfOne<T>(xs: seq<T>, x: T)
    requires xs != [] && forall i :: 0 <= i < |xs| ==> xs[i] == x
    ensures Full(xs) == seq(Pow2(Depth(|xs|)), _ => x)
  {
    FullSpec(xs);
    forall i | 0 <= i < |Full(xs)| ensures Full(xs)[i] == x { assert Full(xs)[i] in xs; }
  }

  /** In particular every odd list can be made longer: its last entry repeated. */
  lemma OddDuplication<E>(es: seq<E>, json: E -> seq<byte>, h: Hasher)
    requires |es| % 2 == 1 && |es| > 1
    ensures MerkleRoot(es + [es[|es| - 1]], json, h) == MerkleRoot(es, json, h)
  {
    var hs, more := Leaves(es, json, h), Leaves(es + [es[|es| - 1]], json, h);
    forall k | 0 <= k < |Level(hs, h)| ensures Level(hs, h)[k] == Level(more, h)[k] {
      assert Join(hs, k) == Join(more, k);
      LevelAt(hs, h, k);
      LevelAt(more, h, k);
    }
    assert Level(hs, h) == Level(more, h);
    OneLevelUp(hs, h);
    OneLevelUp(more, h);
  }
}
