/** The byte keys of the timeout index (x/settlement/types/keys.go:147-173) and the range scan over
    them (x/settlement/keeper/keeper.go:2373-2402): in byte order, the scan visits exactly the
    keys whose height is at most the cutoff. */
module TimeoutKeys {
  import opened Ledger
  import opened Tokens

  const SECOND_PREFIX: seq<byte> := [0x0D]
  const THIRD_PREFIX: seq<byte> := [0x0E]

  // ---------- Byte order and big-endian numbers ----------

  /** bytes.Compare(a, b) < 0. */
  predicate Below(a: seq<byte>, b: seq<byte>) {
    b != [] && (a == [] || a[0] < b[0] || (a[0] == b[0] && Below(a[1..], b[1..])))
  }

  function Pow256(w: nat): (r: nat)
    ensures r > 0
  {
    if w == 0 then 1 else 256 * Pow256(w - 1)
  }

  /** The `w` bytes of n, most significant first. */
  function BigEndian(n: nat, w: nat): (r: seq<byte>)
    requires n < Pow256(w)
    ensures |r| == w
  {
    if w == 0 then [] else BigEndian(n / 256, w - 1) + [(n % 256) as byte]
  }

  function FromBigEndian(s: seq<byte>): nat {
    if s == [] then 0 else FromBigEndian(s[..|s| - 1]) * 256 + s[|s| - 1] as nat
  }

  lemma {:induction false} BigEndianRoundTrip(n: nat, w: nat)
    requires n < Pow256(w)
    ensures FromBigEndian(BigEndian(n, w)) == n
  {
    if w > 0 {
      BigEndianRoundTrip(n / 256, w - 1);
      assert BigEndian(n, w)[..w - 1] == BigEndian(n / 256, w - 1);
    }
  }

  lemma BelowCons(a: byte, b: byte, s: seq<byte>, t: seq<byte>)
    ensures Below([a] + s, [b] + t) <==> a < b || (a == b && Below(s, t))
  {
    assert ([a] + s)[1..] == s && ([b] + t)[1..] == t;
  }

  /** Byte order on equally long big-endian numbers is numeric order; only ties look further. */
  lemma {:induction false} BigEndianOrder(m: nat, n: nat, w: nat, x: seq<byte>, y: seq<byte>)
    requires m < Pow256(w) && n < Pow256(w)
    ensures Below(BigEndian(m, w) + x, BigEndian(n, w) + y) <==> m < n || (m == n && Below(x, y))
  {
    if w == 0 {
      assert BigEndian(m, w) + x == x && BigEndian(n, w) + y == y;
    } else {
      var a, b := (m % 256) as byte, (n % 256) as byte;
      BigEndianOrder(m / 256, n / 256, w - 1, [a] + x, [b] + y);
      BelowCons(a, b, x, y);
      assert BigEndian(m, w) + x == BigEndian(m / 256, w - 1) + ([a] + x);
      assert BigEndian(n, w) + y == BigEndian(n / 256, w - 1) + ([b] + y);
    }
  }

  lemma {:induction false} SamePrefixOrder(prefix: seq<byte>, a: seq<byte>, b: seq<byte>)
    ensures Below(prefix + a, prefix + b) <==> Below(a, b)
  {
    if prefix == [] {
      assert prefix + a == a && prefix + b == b;
    } else {
      assert (prefix + a)[1..] == prefix[1..] + a && (prefix + b)[1..] == prefix[1..] + b;
      SamePrefixOrder(prefix[1..], a, b);
    }
  }

  // ---------- Timeout keys ----------


  lemma EightBytes()
    ensures Pow256(8) == TWO_64
  {
    assert Pow256(2) == 65536 && Pow256(4) == 65536 * 65536;
    assert Pow256(6) == 65536 * Pow256(4);
  }

  function Key(prefix: seq<byte>, k: TimeoutKey): seq<byte>
    requires 0 <= k.0 < TWO_64
  {
    EightBytes();
    prefix + (BigEndian(k.0, 8) + k.1)
  }

  function EndKey(prefix: seq<byte>, cutoff: nat): seq<byte>
    requires cutoff + 1 < TWO_64
  {
    EightBytes();
    prefix + BigEndian(cutoff + 1, 8)
  }

  /** What store.Iterator(start, end) visits. */
  predicate InRange(key: seq<byte>, start: seq<byte>, end: seq<byte>) {
    !Below(key, start) && Below(key, end)
  }

  /** How the scan takes a key apart again. */
  function Parse(prefix: seq<byte>, raw: seq<byte>): TimeoutKey
    requires |raw| >= |prefix| + 8
  {
    (FromBigEndian(raw[|prefix|..|prefix| + 8]), raw[|prefix| + 8..])
  }

  lemma KeyRoundTrip(prefix: seq<byte>, k: TimeoutKey)
    requires 0 <= k.0 < TWO_64
    ensures |Key(prefix, k)| == |prefix| + 8 + |k.1| && Parse(prefix, Key(prefix, k)) == k
  {
    EightBytes();
    BigEndianRoundTrip(k.0, 8);
    var raw := Key(prefix, k);
    assert raw[|prefix|..|prefix| + 8] == BigEndian(k.0, 8) && raw[|prefix| + 8..] == k.1;
  }

  lemma {:induction false} NotBelowPrefix(prefix: seq<byte>, rest: seq<byte>)
    ensures !Below(prefix + rest, prefix)
  {
    assert prefix + [] == prefix;
    SamePrefixOrder(prefix, rest, []);
  }

  /** The range scan visits a key exactly when its height is at most the cutoff. */
  lemma ScannedByHeight(prefix: seq<byte>, k: TimeoutKey, cutoff: nat)
    requires 0 <= k.0 < TWO_64 && cutoff + 1 < TWO_64
    ensures InRange(Key(prefix, k), prefix, EndKey(prefix, cutoff)) <==> k.0 <= cutoff
  {
    EightBytes();
    NotBelowPrefix(prefix, BigEndian(k.0, 8) + k.1);
    SamePrefixOrder(prefix, BigEndian(k.0, 8) + k.1, BigEndian(cutoff + 1, 8));
    assert BigEndian(cutoff + 1, 8) + [] == BigEndian(cutoff + 1, 8);
    BigEndianOrder(k.0, cutoff + 1, 8, k.1, []);
  }

  /** The scan never strays into keys of another kind. */
  lemma {:induction false} ScanStaysInPrefix(prefix: seq<byte>, raw: seq<byte>, rest: seq<byte>)
    requires InRange(raw, prefix, prefix + rest)
    ensures prefix <= raw
  {
    if prefix != [] {
      assert (prefix + rest)[1..] == prefix[1..] + rest;
      ScanStaysInPrefix(prefix[1..], raw[1..], rest);
    }
  }

  /** Scanning one tier never meets a key of the other. */
  lemma TiersApart(k: TimeoutKey, cutoff: nat)
    requires 0 <= k.0 < TWO_64 && cutoff + 1 < TWO_64
    ensures !InRange(Key(THIRD_PREFIX, k), SECOND_PREFIX, EndKey(SECOND_PREFIX, cutoff))
    ensures !InRange(Key(SECOND_PREFIX, k), THIRD_PREFIX, EndKey(THIRD_PREFIX, cutoff))
  {
    EightBytes();
    var rest := BigEndian(cutoff + 1, 8);
    if InRange(Key(THIRD_PREFIX, k), SECOND_PREFIX, SECOND_PREFIX + rest) {
      ScanStaysInPrefix(SECOND_PREFIX, Key(THIRD_PREFIX, k), rest);
    }
    if InRange(Key(SECOND_PREFIX, k), THIRD_PREFIX, THIRD_PREFIX + rest) {
      ScanStaysInPrefix(THIRD_PREFIX, Key(SECOND_PREFIX, k), rest);
    }
  }

  // ---------- The scan as the ledger model sees it ----------

  ghost predicate HeightsFit(index: set<TimeoutKey>) {
    forall k :: k in index ==> 0 <= k.0 < TWO_64
  }

  /** The store holds exactly the keys of the index under this prefix, and anything under others. */
  ghost predicate Stores(store: set<seq<byte>>, prefix: seq<byte>, index: set<TimeoutKey>)
    requires HeightsFit(index)
  {
    forall raw :: raw in store && prefix <= raw <==> exists k :: k in index && raw == Key(prefix, k)
  }

  /** The iterator yields each key of the store in the range once. */
  ghost predicate Iterates(raws: seq<seq<byte>>, store: set<seq<byte>>, start: seq<byte>, end: seq<byte>) {
    && (forall raw :: raw in raws <==> raw in store && InRange(raw, start, end))
    && (forall i, j :: 0 <= i < j < |raws| ==> raws[i] != raws[j])
  }

  lemma IteratedKey(raw: seq<byte>, store: set<seq<byte>>, prefix: seq<byte>, index: set<TimeoutKey>, cutoff: nat)
    requires HeightsFit(index) && Stores(store, prefix, index) && cutoff + 1 < TWO_64
    requires raw in store && InRange(raw, prefix, EndKey(prefix, cutoff))
    ensures |raw| >= |prefix| + 8
    ensures var k := Parse(prefix, raw); k in index && k.0 <= cutoff && raw == Key(prefix, k)
  {
    EightBytes();
    ScanStaysInPrefix(prefix, raw, BigEndian(cutoff + 1, 8));
    var k :| k in index && raw == Key(prefix, k);
    KeyRoundTrip(prefix, k);
    ScannedByHeight(prefix, k, cutoff);
  }

  /** Whatever else is in the store, the parsed keys are a scan of the index up to the cutoff. */
  lemma RangeScanIsScan(raws: seq<seq<byte>>, store: set<seq<byte>>, prefix: seq<byte>, index: set<TimeoutKey>,
                        cutoff: nat, keys: seq<TimeoutKey>)
    requires HeightsFit(index) && Stores(store, prefix, index) && cutoff + 1 < TWO_64
    requires Iterates(raws, store, prefix, EndKey(prefix, cutoff))
    requires |keys| == |raws|
    requires forall i :: 0 <= i < |raws| ==> |raws[i]| >= |prefix| + 8 && keys[i] == Parse(prefix, raws[i])
    ensures IsScan(keys, index, cutoff)
  {
    forall i | 0 <= i < |raws| ensures keys[i] in index && keys[i].0 <= cutoff && raws[i] == Key(prefix, keys[i]) {
      IteratedKey(raws[i], store, prefix, index, cutoff);
    }
    forall k | k in index && k.0 <= cutoff ensures k in keys {
      ScannedByHeight(prefix, k, cutoff);
      var raw := Key(prefix, k);
      assert prefix <= raw && raw in store;
      var i :| 0 <= i < |raws| && raws[i] == raw;
      KeyRoundTrip(prefix, k);
      assert keys[i] == k;
    }
  }
}
