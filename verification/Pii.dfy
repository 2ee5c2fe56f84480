/** Reversible PII substitution (sdk/client.go:700-747): every match is replaced by an indexed
    placeholder where it first occurs, and restored by replacing the placeholders in order. */
module Pii {

  // ---------- Placeholders ----------

  function Digit(d: nat): (c: char)
    requires d < 10
    ensures '0' <= c <= '9' && c as int == '0' as int + d
  {
    ('0' as int + d) as char
  }

  function Dec(n: nat): (s: string)
    ensures s != "" && forall i :: 0 <= i < |s| ==> '0' <= s[i] <= '9'
  {
    if n < 10 then [Digit(n)] else Dec(n / 10) + [Digit(n % 10)]
  }

  /** The number a digit string denotes. */
  function Val(s: string): int {
    if s == "" then 0 else Val(s[..|s| - 1]) * 10 + (s[|s| - 1] as int - '0' as int)
  }

  lemma {:induction false} ValOfDec(n: nat)
    ensures Val(Dec(n)) == n
  {
    if n >= 10 {
      ValOfDec(n / 10);
      assert Dec(n)[..|Dec(n)| - 1] == Dec(n / 10);
    } else {
      assert Dec(n)[..0] == "";
    }
  }

  const MARKER := "[PII_"

  function Interior(k: nat): string { "PII_" + Dec(k) }

  function Tag(k: nat): string { "[" + Interior(k) + "]" }

  predicate BracketFree(s: string) { forall i :: 0 <= i < |s| ==> s[i] != '[' && s[i] != ']' }

  /** The number a placeholder carries. */
  function NumberOf(t: string): int { if |t| >= 6 then Val(t[5..|t| - 1]) else -1 }

  /** A family of placeholders, and the number each carries. The reasoning below is about any family that is
      bracketed, otherwise bracket-free, marked and numbered; TAGS is the one in use. */
  datatype Tags = Tags(name: nat -> string, number: string -> int)

  const TAGS := Tags(Tag, NumberOf)

  ghost predicate Bracketed(t: string) {
    |t| >= 2 && t[0] == '[' && t[|t| - 1] == ']' && forall i :: 1 <= i < |t| - 1 ==> t[i] != '[' && t[i] != ']'
  }

  ghost predicate Marked(t: string) { MARKER <= t }

  ghost predicate Sound(tag: Tags) {
    forall k :: Bracketed(tag.name(k)) && Marked(tag.name(k)) && tag.number(tag.name(k)) == k
  }

  lemma TagIsSound(k: nat)
    ensures Bracketed(Tag(k)) && Marked(Tag(k)) && NumberOf(Tag(k)) == k
  {
    assert Tag(k)[5..|Tag(k)| - 1] == Dec(k);
    ValOfDec(k);
  }

  lemma TagsAreSound()
    ensures Sound(TAGS)
  {
    forall k: nat ensures Bracketed(Tag(k)) && Marked(Tag(k)) && NumberOf(Tag(k)) == k { TagIsSound(k); }
  }

  // ---------- String operations ----------

  predicate Occurs(m: string, s: string, i: int) { 0 <= i && i + |m| <= |s| && s[i..i + |m|] == m }

  /** strings.Index. */
  function Index(s: string, m: string): int {
    if m <= s then 0
    else if s == "" then -1
    else var r := Index(s[1..], m); if r < 0 then -1 else r + 1
  }

  lemma PrefixOccurs(m: string, s: string)
    ensures m <= s <==> Occurs(m, s, 0)
  {
    if |m| <= |s| { assert s[0..|m|] == s[..|m|]; }
  }

  lemma {:induction false} IndexIsFirst(s: string, m: string)
    ensures Index(s, m) >= 0 ==> Occurs(m, s, Index(s, m)) && forall i :: 0 <= i < Index(s, m) ==> !Occurs(m, s, i)
    ensures Index(s, m) < 0 ==> forall i :: !Occurs(m, s, i)
  {
    PrefixOccurs(m, s);
    if !(m <= s) && s != "" {
      IndexIsFirst(s[1..], m);
      forall i | i > 0 ensures Occurs(m, s, i) <==> Occurs(m, s[1..], i - 1) {
        if i + |m| <= |s| { assert s[1..][i - 1..i - 1 + |m|] == s[i..i + |m|]; }
      }
    }
  }

  /** strings.Replace(s, m, t, 1). */
  function ReplaceOnce(s: string, m: string, t: string): string {
    var i := Index(s, m);
    IndexIsFirst(s, m);
    if i < 0 then s else s[..i] + t + s[i + |m|..]
  }

  /** strings.ReplaceAll. */
  function ReplaceAll(s: string, m: string, t: string): string {
    if m == "" then Interleave(s, t) else ReplaceEach(s, m, t)
  }

  function Interleave(s: string, t: string): string {
    if s == "" then t else t + [s[0]] + Interleave(s[1..], t)
  }

  function ReplaceEach(s: string, m: string, t: string): string
    requires m != ""
    decreases |s|
  {
    if s == "" then ""
    else if m <= s then t + ReplaceEach(s[|m|..], m, t)
    else [s[0]] + ReplaceEach(s[1..], m, t)
  }

  // ---------- Sanitize and restore ----------

  /** The text once the given matches have been replaced, in order. */
  function Sanitized(prompt: string, ms: seq<string>, tag: Tags): string {
    if ms == [] then prompt else
      var n := |ms| - 1;
      ReplaceOnce(Sanitized(prompt, ms[..n], tag), ms[n], tag.name(n))
  }

  datatype Mapping = Mapping(placeholder: string, original: string)

  /** The text once the first n placeholders have been put back. */
  function Restored(s: string, mapping: seq<Mapping>, n: nat): string
    requires n <= |mapping|
  {
    if n == 0 then s else
      ReplaceAll(Restored(s, mapping, n - 1), mapping[n - 1].placeholder, mapping[n - 1].original)
  }

  /** The mapping that sanitizing these matches yields. */
  function MappingOf(ms: seq<string>, tag: Tags): (mapping: seq<Mapping>)
    ensures |mapping| == |ms| && forall i :: 0 <= i < |ms| ==> mapping[i] == Mapping(tag.name(i), ms[i])
  {
    seq(|ms|, i requires 0 <= i < |ms| => Mapping(tag.name(i), ms[i]))
  }

  lemma SanitizedSnoc(prompt: string, ms: seq<string>, m: string, tag: Tags)
    ensures Sanitized(prompt, ms + [m], tag) == ReplaceOnce(Sanitized(prompt, ms, tag), m, tag.name(|ms|))
    ensures MappingOf(ms + [m], tag) == MappingOf(ms, tag) + [Mapping(tag.name(|ms|), m)]
  {
    assert (ms + [m])[..|ms|] == ms;
  }

  /** Every match the patterns find, each pattern searching the text as it is when its turn comes. */
  function MatchesOf(prompt: string, patterns: seq<string -> seq<string>>): seq<string> {
    if patterns == [] then [] else
      var n := |patterns| - 1;
      var before := MatchesOf(prompt, patterns[..n]);
      before + patterns[n](Sanitized(prompt, before, TAGS))
  }

  /** Replace one pattern's matches, numbering on from those before. */
  method ReplaceMatches(prompt: string, before: seq<string>, text: string, numbered: seq<Mapping>, matches: seq<string>)
    returns (result: string, mapping: seq<Mapping>)
    requires numbered == MappingOf(before, TAGS) && text == Sanitized(prompt, before, TAGS)
    ensures mapping == MappingOf(before + matches, TAGS) && result == Sanitized(prompt, before + matches, TAGS)
  {
    result, mapping := text, numbered;
    ghost var ms := before;
    for i := 0 to |matches|
      invariant ms == before + matches[..i]
      invariant mapping == MappingOf(ms, TAGS) && result == Sanitized(prompt, ms, TAGS)
    {
      var placeholder := Tag(|mapping|);
      SanitizedSnoc(prompt, ms, matches[i], TAGS);
      OneMore(before, matches, i);
      mapping := mapping + [Mapping(placeholder, matches[i])];
      result := ReplaceOnce(result, matches[i], placeholder);
      ms := ms + [matches[i]];
    }
    assert matches[..|matches|] == matches;
  }

  lemma OneMore(before: seq<string>, matches: seq<string>, i: nat)
    requires i < |matches|
    ensures before + matches[..i] + [matches[i]] == before + matches[..i + 1]
  {
  }

  method SanitizePromptReversible(prompt: string, patterns: seq<string -> seq<string>>)
    returns (result: string, mapping: seq<Mapping>)
    ensures mapping == MappingOf(MatchesOf(prompt, patterns), TAGS)
    ensures result == Sanitized(prompt, MatchesOf(prompt, patterns), TAGS)
  {
    result, mapping := prompt, [];
    var found: seq<string> := [];
    for p := 0 to |patterns|
      invariant found == MatchesOf(prompt, patterns[..p])
      invariant mapping == MappingOf(found, TAGS) && result == Sanitized(prompt, found, TAGS)
    {
      assert patterns[..p + 1][..p] == patterns[..p];
      var matches := patterns[p](result);
      result, mapping := ReplaceMatches(prompt, found, result, mapping, matches);
      found := found + matches;
    }
    assert patterns[..|patterns|] == patterns;
  }

  method RestoreOutput(output: string, mapping: seq<Mapping>) returns (result: string)
    ensures result == Restored(output, mapping, |mapping|)
  {
    result := output;
    for i := 0 to |mapping|
      invariant result == Restored(output, mapping, i)
    {
      result := ReplaceAll(result, mapping[i].placeholder, mapping[i].original);
    }
  }

  // ---------- The text as characters and placeholders ----------

  datatype Tok = C(ch: char) | P(k: nat)

  function Shown(t: Tok, tag: Tags): string { if t.C? then [t.ch] else tag.name(t.k) }

  function Meant(t: Tok, ms: seq<string>): string {
    if t.C? then [t.ch] else if t.k < |ms| then ms[t.k] else ""
  }

  function Render(ts: seq<Tok>, tag: Tags): string {
    if ts == [] then "" else Shown(ts[0], tag) + Render(ts[1..], tag)
  }

  /** The text with the matches back in place of their placeholders. */
  function Expand(ts: seq<Tok>, ms: seq<string>): string {
    if ts == [] then "" else Meant(ts[0], ms) + Expand(ts[1..], ms)
  }

  function Chars(s: string): (ts: seq<Tok>)
    ensures |ts| == |s| && forall i :: 0 <= i < |s| ==> ts[i] == C(s[i])
  {
    seq(|s|, i requires 0 <= i < |s| => C(s[i]))
  }

  lemma {:induction false} RenderAppend(a: seq<Tok>, b: seq<Tok>, tag: Tags)
    ensures Render(a + b, tag) == Render(a, tag) + Render(b, tag)
  {
    if a == [] {
      assert a + b == b;
    } else {
      assert (a + b)[1..] == a[1..] + b;
      RenderAppend(a[1..], b, tag);
    }
  }

  lemma {:induction false} ExpandAppend(a: seq<Tok>, b: seq<Tok>, ms: seq<string>)
    ensures Expand(a + b, ms) == Expand(a, ms) + Expand(b, ms)
  {
    if a == [] {
      assert a + b == b;
    } else {
      assert (a + b)[1..] == a[1..] + b;
      ExpandAppend(a[1..], b, ms);
    }
  }

  lemma {:induction false} RenderChars(s: string, tag: Tags)
    ensures Render(Chars(s), tag) == s
  {
    if s != "" {
      assert Chars(s)[1..] == Chars(s[1..]);
      RenderChars(s[1..], tag);
    }
  }

  lemma {:induction false} ExpandChars(s: string, ms: seq<string>)
    ensures Expand(Chars(s), ms) == s
  {
    if s != "" {
      assert Chars(s)[1..] == Chars(s[1..]);
      ExpandChars(s[1..], ms);
    }
  }

  /** The first character of a text tells what it starts with. */
  lemma HeadOf(ts: seq<Tok>, tag: Tags)
    requires Sound(tag) && Render(ts, tag) != ""
    ensures ts != []
    ensures if ts[0].C? then Render(ts, tag) == [ts[0].ch] + Render(ts[1..], tag) else Render(ts, tag)[0] == '['
  {
  }

  // ---------- Where a match is found ----------

  lemma PrefixTail(m: string, c: char, s: string)
    requires m != "" && m <= [c] + s
    ensures m[0] == c && m[1..] <= s
  {
    assert ([c] + s)[1..] == s;
  }

  /** Bracket-free text at the start can only come from characters. */
  lemma {:induction false} HeadRun(ts: seq<Tok>, m: string, tag: Tags)
    requires Sound(tag) && BracketFree(m) && m <= Render(ts, tag)
    ensures |m| <= |ts| && ts[..|m|] == Chars(m)
  {
    if m != "" {
      HeadOf(ts, tag);
      assert m[0] == Render(ts, tag)[0];
      PrefixTail(m, ts[0].ch, Render(ts[1..], tag));
      HeadRun(ts[1..], m[1..], tag);
      assert ts[..|m|] == [ts[0]] + ts[1..][..|m| - 1];
    }
  }

  /** Inside the placeholder that token j renders to, brackets excluded. */
  ghost predicate WithinTag(ts: seq<Tok>, j: nat, i: int, len: nat, tag: Tags) {
    j < |ts| && ts[j].P? && |Render(ts[..j], tag)| < i && i + len < |Render(ts[..j], tag)| + |tag.name(ts[j].k)|
  }

  ghost predicate OnChars(ts: seq<Tok>, j: nat, i: int, m: string, tag: Tags) {
    j + |m| <= |ts| && ts[j..j + |m|] == Chars(m) && |Render(ts[..j], tag)| == i
  }

  lemma Shift(ts: seq<Tok>, j: nat, i: int, m: string, tag: Tags)
    requires ts != [] && (WithinTag(ts[1..], j, i, |m|, tag) || OnChars(ts[1..], j, i, m, tag))
    ensures WithinTag(ts[1..], j, i, |m|, tag) ==> WithinTag(ts, j + 1, i + |Shown(ts[0], tag)|, |m|, tag)
    ensures OnChars(ts[1..], j, i, m, tag) ==> OnChars(ts, j + 1, i + |Shown(ts[0], tag)|, m, tag)
  {
    assert ts[..j + 1][1..] == ts[1..][..j];
    if OnChars(ts[1..], j, i, m, tag) { assert ts[1..][j..j + |m|] == ts[j + 1..j + 1 + |m|]; }
  }

  /** A bracket-free text starting inside a placeholder ends inside it. */
  lemma StaysInside(head: string, rest: string, m: string, i: nat)
    requires Bracketed(head) && BracketFree(m) && 0 < i < |head| && Occurs(m, head + rest, i) && m != ""
    ensures i + |m| < |head|
  {
    var s := head + rest;
    forall y | i <= y < i + |m| ensures s[y] != ']' { assert s[y] == s[i..i + |m|][y - i]; }
    assert s[|head| - 1] == ']';
  }

  /** Bracket-free text found at position i lies on character tokens, or within one placeholder. */
  lemma {:induction false} Locate(ts: seq<Tok>, m: string, i: nat, tag: Tags) returns (j: nat)
    requires Sound(tag) && BracketFree(m) && m != "" && Occurs(m, Render(ts, tag), i)
    ensures WithinTag(ts, j, i, |m|, tag) || OnChars(ts, j, i, m, tag)
  {
    var head, rest := Shown(ts[0], tag), Render(ts[1..], tag);
    if i == 0 {
      PrefixOccurs(m, Render(ts, tag));
      HeadRun(ts, m, tag);
      j := 0;
      assert ts[0..|m|] == ts[..|m|];
    } else if i >= |head| {
      assert rest[i - |head|..i - |head| + |m|] == Render(ts, tag)[i..i + |m|];
      j := Locate(ts[1..], m, i - |head|, tag);
      Shift(ts, j, i - |head|, m, tag);
      j := j + 1;
    } else {
      StaysInside(head, rest, m, i);
      j := 0;
      assert ts[..0] == [];
    }
  }

  // ---------- Sanitizing keeps the prompt recoverable ----------

  ghost predicate NoMarker(s: string) { forall i :: !Occurs(MARKER, s, i) }

  /** The match would be found inside an earlier placeholder. */
  ghost predicate HitsInside(s: string, m: string, k: nat, tag: Tags) {
    var i := Index(s, m);
    i >= 0 && exists q, a :: 0 <= q < k && Occurs(tag.name(q), s, a) && a < i && i + |m| < a + |tag.name(q)|
  }

  /** No match is ever found inside an earlier placeholder. */
  ghost predicate AlwaysOutside(prompt: string, ms: seq<string>, tag: Tags) {
    ms == [] ||
    (var n := |ms| - 1;
     AlwaysOutside(prompt, ms[..n], tag) && !HitsInside(Sanitized(prompt, ms[..n], tag), ms[n], n, tag))
  }

  ghost predicate AllBracketFree(ms: seq<string>) { forall i :: 0 <= i < |ms| ==> BracketFree(ms[i]) }

  /** Only placeholders from n up to the bound occur. */
  ghost predicate LeftFrom(ts: seq<Tok>, n: nat, bound: nat) {
    forall j :: 0 <= j < |ts| && ts[j].P? ==> n <= ts[j].k < bound
  }

  lemma {:induction false} ExpandMore(ts: seq<Tok>, ms: seq<string>, m: string)
    requires LeftFrom(ts, 0, |ms|)
    ensures Expand(ts, ms + [m]) == Expand(ts, ms)
  {
    if ts != [] {
      assert ts[0].P? ==> ts[0].k < |ms|;
      assert LeftFrom(ts[1..], 0, |ms|);
      ExpandMore(ts[1..], ms, m);
    }
  }

  /** A text in three parts, rendered and expanded. */
  lemma Parts(a: seq<Tok>, x: seq<Tok>, b: seq<Tok>, ms: seq<string>, tag: Tags)
    ensures Render(a + x + b, tag) == Render(a, tag) + Render(x, tag) + Render(b, tag)
    ensures Expand(a + x + b, ms) == Expand(a, ms) + Expand(x, ms) + Expand(b, ms)
  {
    RenderAppend(a, x, tag);
    RenderAppend(a + x, b, tag);
    ExpandAppend(a, x, ms);
    ExpandAppend(a + x, b, ms);
  }

  lemma OneTok(t: Tok, ms: seq<string>, tag: Tags)
    ensures Render([t], tag) == Shown(t, tag) && Expand([t], ms) == Meant(t, ms)
  {
    assert [t][1..] == [];
  }

  lemma LeftParts(a: seq<Tok>, x: seq<Tok>, b: seq<Tok>, n: nat, bound: nat)
    ensures LeftFrom(a + x + b, n, bound) <==> LeftFrom(a, n, bound) && LeftFrom(x, n, bound) && LeftFrom(b, n, bound)
  {
    var all := a + x + b;
    if LeftFrom(all, n, bound) {
      assert forall j :: 0 <= j < |a| ==> a[j] == all[j];
      assert forall j :: 0 <= j < |x| ==> x[j] == all[|a| + j];
      assert forall j :: 0 <= j < |b| ==> b[j] == all[|a| + |x| + j];
    }
  }

  lemma ReplaceRunText(a: seq<Tok>, m: string, b: seq<Tok>, ms: seq<string>, tag: Tags)
    requires LeftFrom(a, 0, |ms|) && LeftFrom(b, 0, |ms|)
    ensures Render(a + Chars(m) + b, tag) == Render(a, tag) + m + Render(b, tag)
    ensures Render(a + [P(|ms|)] + b, tag) == Render(a, tag) + tag.name(|ms|) + Render(b, tag)
    ensures Expand(a + [P(|ms|)] + b, ms + [m]) == Expand(a + Chars(m) + b, ms)
  {
    Parts(a, Chars(m), b, ms, tag);
    RenderChars(m, tag);
    ExpandChars(m, ms);
    Parts(a, [P(|ms|)], b, ms + [m], tag);
    OneTok(P(|ms|), ms + [m], tag);
    ExpandMore(a, ms, m);
    ExpandMore(b, ms, m);
  }

  lemma TagOfToken(ts: seq<Tok>, j: nat, tag: Tags)
    requires j < |ts| && ts[j].P?
    ensures Occurs(tag.name(ts[j].k), Render(ts, tag), |Render(ts[..j], tag)|)
  {
    assert ts == ts[..j] + [ts[j]] + ts[j + 1..];
    Parts(ts[..j], [ts[j]], ts[j + 1..], [], tag);
    OneTok(ts[j], [], tag);
  }

  lemma Cut(x: string, m: string, y: string)
    ensures (x + m + y)[..|x|] == x && (x + m + y)[|x| + |m|..] == y
  {
  }

  // ---------- Restoring ----------

  /** The placeholder's text spelled out in character tokens. */
  ghost predicate StartsRaw(ts: seq<Tok>, k: nat, tag: Tags) { Chars(tag.name(k)) <= ts }

  ghost predicate NoRaw(ts: seq<Tok>, k: nat, tag: Tags) { forall i :: 0 <= i <= |ts| ==> !StartsRaw(ts[i..], k, tag) }

  /** A bracketed text is fixed by any text it starts. */
  lemma BracketedPrefix(x: string, y: string, rest: string)
    requires Bracketed(x) && Bracketed(y) && x <= y + rest
    ensures x == y
  {
    var s := y + rest;
    assert forall i :: 0 <= i < |x| ==> x[i] == s[i];
    assert forall i :: 0 <= i < |y| ==> y[i] == s[i];
    assert |x| == |y|;
  }

  /** A bracketed text that starts with a character is spelled out. */
  lemma RawBracketed(ts: seq<Tok>, t: string, tag: Tags)
    requires Sound(tag) && Bracketed(t) && ts != [] && ts[0].C? && t <= Render(ts, tag)
    ensures Chars(t) <= ts
  {
    var x, rest := t[1..|t| - 1], ts[1..];
    var n, text := |x|, Render(ts[1..], tag);
    assert Render(ts, tag) == [ts[0].ch] + text;
    assert forall i :: 0 <= i < n ==> text[i] == x[i];
    HeadRun(rest, x, tag);
    NextAfterRun(rest, x, tag);
    assert Render(rest[n..], tag)[0] == text[n] == t[n + 1];
    HeadOf(rest[n..], tag);
    assert rest[n..][0] == C(']');
    forall i | 0 <= i < |t| ensures ts[i] == C(t[i]) {
      if 0 < i <= n { assert ts[i] == rest[..n][i - 1]; }
    }
  }

  /** A placeholder at the start of the text is a placeholder token, or spelled out. */
  lemma TagPrefix(ts: seq<Tok>, k: nat, tag: Tags)
    requires Sound(tag) && tag.name(k) <= Render(ts, tag)
    ensures ts != [] && (ts[0] == P(k) || StartsRaw(ts, k, tag))
  {
    HeadOf(ts, tag);
    if ts[0].P? {
      BracketedPrefix(tag.name(k), tag.name(ts[0].k), Render(ts[1..], tag));
      assert tag.number(tag.name(k)) == k && tag.number(tag.name(ts[0].k)) == ts[0].k;
    } else {
      RawBracketed(ts, tag.name(k), tag);
    }
  }

  lemma NextAfterRun(ts: seq<Tok>, x: string, tag: Tags)
    requires |x| <= |ts| && ts[..|x|] == Chars(x)
    ensures Render(ts, tag) == x + Render(ts[|x|..], tag)
  {
    assert ts == ts[..|x|] + ts[|x|..];
    RenderAppend(ts[..|x|], ts[|x|..], tag);
    RenderChars(x, tag);
  }

  function Subst(ts: seq<Tok>, k: nat, m: string): seq<Tok> {
    if ts == [] then [] else SubstOne(ts[0], k, m) + Subst(ts[1..], k, m)
  }

  function SubstOne(t: Tok, k: nat, m: string): seq<Tok> { if t == P(k) then Chars(m) else [t] }

  lemma Cons(x: string, r: string)
    requires x != ""
    ensures x + r == [x[0]] + (x[1..] + r) && (x + r)[0] == x[0] && (x + r)[1..] == x[1..] + r
  {
  }

  /** Where the text to replace does not start, one character is passed over. */
  lemma SkipOne(s: string, t: string, m: string)
    requires t != "" && s != "" && !(t <= s)
    ensures ReplaceEach(s, t, m) == [s[0]] + ReplaceEach(s[1..], t, m)
  {
  }

  lemma {:induction false} SkipChars(x: string, rest: string, t: string, m: string)
    requires t != "" && forall i :: 0 <= i < |x| ==> x[i] != t[0]
    ensures ReplaceEach(x + rest, t, m) == x + ReplaceEach(rest, t, m)
  {
    if x == "" {
      assert x + rest == rest && x + ReplaceEach(rest, t, m) == ReplaceEach(rest, t, m);
    } else {
      SkipChars(x[1..], rest, t, m);
      Cons(x, rest);
      SkipOne(x + rest, t, m);
      Cons(x, ReplaceEach(rest, t, m));
    }
  }

  lemma NoRawTail(ts: seq<Tok>, k: nat, tag: Tags)
    requires NoRaw(ts, k, tag) && ts != []
    ensures NoRaw(ts[1..], k, tag) && !StartsRaw(ts, k, tag)
  {
    forall i | 0 <= i <= |ts[1..]| ensures !StartsRaw(ts[1..][i..], k, tag) {
      assert ts[1..][i..] == ts[i + 1..];
    }
    assert ts[0..] == ts;
  }

  lemma NoLaterBracket(x: string)
    requires Bracketed(x)
    ensures forall i :: 0 <= i < |x[1..]| ==> x[1..][i] != '['
  {
  }

  /** Passing over a character or another placeholder. */
  lemma PassOver(x: string, rest: string, t: string, m: string)
    requires t != "" && t[0] == '[' && x != "" && !(t <= x + rest) && (|x| == 1 || Bracketed(x))
    ensures ReplaceEach(x + rest, t, m) == x + ReplaceEach(rest, t, m)
  {
    if |x| > 1 { NoLaterBracket(x); }
    SkipChars(x[1..], rest, t, m);
    Cons(x, rest);
    SkipOne(x + rest, t, m);
    Cons(x, ReplaceEach(rest, t, m));
  }

  lemma ReplaceHead(t: string, rest: string, m: string)
    requires t != ""
    ensures ReplaceEach(t + rest, t, m) == m + ReplaceEach(rest, t, m)
  {
    assert (t + rest)[|t|..] == rest;
  }

  /** ReplaceAll on the text is substitution on the tokens. */
  lemma {:induction false} ReplaceTag(ts: seq<Tok>, k: nat, m: string, tag: Tags)
    requires Sound(tag) && NoRaw(ts, k, tag)
    ensures ReplaceEach(Render(ts, tag), tag.name(k), m) == Render(Subst(ts, k, m), tag)
  {
    if ts != [] {
      var rest, more := Render(ts[1..], tag), Subst(ts[1..], k, m);
      NoRawTail(ts, k, tag);
      ReplaceTag(ts[1..], k, m, tag);
      if ts[0] == P(k) {
        ReplaceHead(tag.name(k), rest, m);
        RenderChars(m, tag);
        RenderAppend(Chars(m), more, tag);
      } else {
        if tag.name(k) <= Render(ts, tag) { TagPrefix(ts, k, tag); }
        PassOver(Shown(ts[0], tag), rest, tag.name(k), m);
        RenderAppend([ts[0]], more, tag);
        OneTok(ts[0], [], tag);
      }
    }
  }

  /** The tokens once the first n placeholders have been put back. */
  function SubstAll(ts: seq<Tok>, ms: seq<string>, n: nat): seq<Tok>
    requires n <= |ms|
  {
    if ts == [] then [] else Put(ts[0], ms, n) + SubstAll(ts[1..], ms, n)
  }

  function Put(t: Tok, ms: seq<string>, n: nat): seq<Tok>
    requires n <= |ms|
  {
    if t.P? && t.k < n then Chars(ms[t.k]) else [t]
  }

  lemma {:induction false} SubstAppend(a: seq<Tok>, b: seq<Tok>, k: nat, m: string)
    ensures Subst(a + b, k, m) == Subst(a, k, m) + Subst(b, k, m)
  {
    if a == [] {
      assert a + b == b;
    } else {
      assert (a + b)[1..] == a[1..] + b;
      SubstAppend(a[1..], b, k, m);
    }
  }

  lemma {:induction false} SubstChars(x: string, k: nat, m: string)
    ensures Subst(Chars(x), k, m) == Chars(x)
  {
    if x != "" {
      assert Chars(x)[1..] == Chars(x[1..]);
      SubstChars(x[1..], k, m);
      assert [C(x[0])] + Chars(x[1..]) == Chars(x);
    }
  }

  lemma PutNext(t: Tok, ms: seq<string>, n: nat)
    requires n < |ms|
    ensures Subst(Put(t, ms, n), n, ms[n]) == Put(t, ms, n + 1)
  {
    if t.P? && t.k < n {
      SubstChars(ms[t.k], n, ms[n]);
    } else {
      assert Subst([t], n, ms[n]) == SubstOne(t, n, ms[n]) by { assert [t][1..] == []; }
    }
  }

  /** Putting back one placeholder more. */
  lemma {:induction false} SubstNext(ts: seq<Tok>, ms: seq<string>, n: nat)
    requires n < |ms|
    ensures Subst(SubstAll(ts, ms, n), n, ms[n]) == SubstAll(ts, ms, n + 1)
  {
    if ts != [] {
      SubstNext(ts[1..], ms, n);
      PutNext(ts[0], ms, n);
      SubstAppend(Put(ts[0], ms, n), SubstAll(ts[1..], ms, n), n, ms[n]);
    }
  }

  /** Putting placeholder n back turns the tokens of stage n into those of stage n + 1. */
  ghost predicate Pass(ts: seq<Tok>, ms: seq<string>, n: nat, tag: Tags)
    requires n < |ms|
  {
    ReplaceAll(Render(SubstAll(ts, ms, n), tag), tag.name(n), ms[n]) == Render(SubstAll(ts, ms, n + 1), tag)
  }

  lemma PassIfNoRaw(ts: seq<Tok>, ms: seq<string>, n: nat, tag: Tags)
    requires Sound(tag) && n < |ms| && NoRaw(SubstAll(ts, ms, n), n, tag)
    ensures Pass(ts, ms, n, tag)
  {
    ReplaceTag(SubstAll(ts, ms, n), n, ms[n], tag);
    SubstNext(ts, ms, n);
  }

  lemma RestoredStep(s: string, ms: seq<string>, n: nat, tag: Tags)
    requires n < |ms|
    ensures Restored(s, MappingOf(ms, tag), n + 1) == ReplaceAll(Restored(s, MappingOf(ms, tag), n), tag.name(n), ms[n])
  {
  }

  ghost predicate Leads(stages: seq<string>, ms: seq<string>, l: nat, tag: Tags)
    requires l < |ms| && |stages| == |ms| + 1
  {
    ReplaceAll(stages[l], tag.name(l), ms[l]) == stages[l + 1]
  }

  /** Restoring goes through the given stages. */
  lemma {:induction false} RestoredStages(stages: seq<string>, ms: seq<string>, n: nat, tag: Tags)
    requires n <= |ms| && |stages| == |ms| + 1 && forall l :: 0 <= l < |ms| ==> Leads(stages, ms, l, tag)
    ensures Restored(stages[0], MappingOf(ms, tag), n) == stages[n]
  {
    if n > 0 {
      RestoredStages(stages, ms, n - 1, tag);
      RestoredStep(stages[0], ms, n - 1, tag);
      assert Leads(stages, ms, n - 1, tag);
    }
  }

  lemma {:induction false} SubstNone(ts: seq<Tok>, ms: seq<string>)
    ensures SubstAll(ts, ms, 0) == ts
  {
    if ts != [] { SubstNone(ts[1..], ms); }
  }

  lemma RestoreTokens(ts: seq<Tok>, ms: seq<string>, tag: Tags)
    requires forall l :: 0 <= l < |ms| ==> Pass(ts, ms, l, tag)
    ensures Restored(Render(ts, tag), MappingOf(ms, tag), |ms|) == Render(SubstAll(ts, ms, |ms|), tag)
  {
    var stages := seq(|ms| + 1, l requires 0 <= l <= |ms| => Render(SubstAll(ts, ms, l), tag));
    forall l | 0 <= l < |ms| ensures Leads(stages, ms, l, tag) {
      assert Pass(ts, ms, l, tag);
    }
    SubstNone(ts, ms);
    RestoredStages(stages, ms, |ms|, tag);
  }

  lemma PutExpands(t: Tok, ms: seq<string>, n: nat)
    requires n <= |ms|
    ensures Expand(Put(t, ms, n), ms) == Meant(t, ms)
  {
    if t.P? && t.k < n { ExpandChars(ms[t.k], ms); } else { assert [t][1..] == []; }
  }

  lemma {:induction false} SubstAllExpands(ts: seq<Tok>, ms: seq<string>, n: nat)
    requires n <= |ms|
    ensures Expand(SubstAll(ts, ms, n), ms) == Expand(ts, ms)
  {
    if ts != [] {
      SubstAllExpands(ts[1..], ms, n);
      PutExpands(ts[0], ms, n);
      ExpandAppend(Put(ts[0], ms, n), SubstAll(ts[1..], ms, n), ms);
    }
  }

  lemma {:induction false} SubstAllLeaves(ts: seq<Tok>, ms: seq<string>, n: nat, bound: nat)
    requires n <= |ms| && LeftFrom(ts, 0, bound)
    ensures LeftFrom(SubstAll(ts, ms, n), n, bound)
  {
    if ts != [] {
      assert LeftFrom(ts[1..], 0, bound) by { forall j | 0 <= j < |ts[1..]| ensures ts[1..][j] == ts[j + 1] { } }
      SubstAllLeaves(ts[1..], ms, n, bound);
    }
  }

  lemma {:induction false} AllChars(ts: seq<Tok>, ms: seq<string>, n: nat, tag: Tags)
    requires LeftFrom(ts, n, n)
    ensures Render(ts, tag) == Expand(ts, ms)
  {
    if ts != [] {
      assert LeftFrom(ts[1..], n, n) by { forall j | 0 <= j < |ts[1..]| ensures ts[1..][j] == ts[j + 1] { } }
      AllChars(ts[1..], ms, n, tag);
    }
  }

  ghost predicate NoTag(s: string, k: nat, tag: Tags) { forall i :: !Occurs(tag.name(k), s, i) }

  lemma NoMarkerNoTag(s: string, k: nat, tag: Tags)
    requires Sound(tag) && NoMarker(s)
    ensures NoTag(s, k, tag)
  {
    forall i | Occurs(tag.name(k), s, i) ensures Occurs(MARKER, s, i) {
      assert s[i..i + |MARKER|] == tag.name(k)[..|MARKER|];
    }
  }

  /** A run of characters shows up in the expanded text. */
  lemma RunShows(ts: seq<Tok>, ms: seq<string>, i: nat, w: string)
    requires i <= |ts| && Chars(w) <= ts[i..]
    ensures Occurs(w, Expand(ts, ms), |Expand(ts[..i], ms)|)
  {
    var a, b := ts[..i], ts[i + |w|..];
    assert ts == a + Chars(w) + b;
    ExpandAppend(a, Chars(w), ms);
    ExpandAppend(a + Chars(w), b, ms);
    ExpandChars(w, ms);
  }

  lemma NoRawFrom(ts: seq<Tok>, ms: seq<string>, k: nat, tag: Tags)
    requires NoTag(Expand(ts, ms), k, tag)
    ensures NoRaw(ts, k, tag)
  {
    forall i | 0 <= i <= |ts| ensures !StartsRaw(ts[i..], k, tag) {
      if StartsRaw(ts[i..], k, tag) { RunShows(ts, ms, i, tag.name(k)); }
    }
  }

  /** Restoring all placeholders gives the expansion. */
  lemma RestoreAll(ts: seq<Tok>, ms: seq<string>, tag: Tags)
    requires LeftFrom(ts, 0, |ms|) && forall l :: 0 <= l < |ms| ==> Pass(ts, ms, l, tag)
    ensures Restored(Render(ts, tag), MappingOf(ms, tag), |ms|) == Expand(ts, ms)
  {
    RestoreTokens(ts, ms, tag);
    SubstAllExpands(ts, ms, |ms|);
    SubstAllLeaves(ts, ms, |ms|, |ms|);
    AllChars(SubstAll(ts, ms, |ms|), ms, |ms|, tag);
  }

  // ---------- Placeholders in the text ----------

  /** No placeholder starts inside another. */
  lemma NotInsideHead(head: string, rest: string, t: string, a: nat)
    requires Bracketed(head)
    requires t != "" && t[0] == '[' && Occurs(t, head + rest, a) && a > 0
    ensures a >= |head|
  {
    var s := head + rest;
    assert s[a] == s[a..a + |t|][0] == '[';
    assert forall i :: 1 <= i < |head| ==> s[i] == head[i];
  }

  lemma PrefixLength(ts: seq<Tok>, j: nat, tag: Tags)
    requires j < |ts|
    ensures |Render(ts[..j + 1], tag)| == |Shown(ts[0], tag)| + |Render(ts[1..][..j], tag)|
  {
    assert ts[..j + 1][1..] == ts[1..][..j];
  }

  lemma OccursInRest(head: string, rest: string, t: string, a: nat)
    requires Occurs(t, head + rest, a) && a >= |head|
    ensures Occurs(t, rest, a - |head|)
  {
    assert rest[a - |head|..a - |head| + |t|] == (head + rest)[a..a + |t|];
  }

  /** A placeholder in the text is a placeholder token. */
  lemma {:induction false} LocateTag(ts: seq<Tok>, q: nat, a: nat, tag: Tags) returns (j: nat)
    requires Sound(tag) && NoRaw(ts, q, tag) && Occurs(tag.name(q), Render(ts, tag), a)
    ensures j < |ts| && ts[j] == P(q) && |Render(ts[..j], tag)| == a
  {
    assert ts != [];
    var t, head, rest := tag.name(q), Shown(ts[0], tag), Render(ts[1..], tag);
    NoRawTail(ts, q, tag);
    if a == 0 {
      PrefixOccurs(t, head + rest);
      TagPrefix(ts, q, tag);
      j := 0;
    } else {
      if ts[0].P? { NotInsideHead(head, rest, t, a); }
      OccursInRest(head, rest, t, a);
      j := LocateTag(ts[1..], q, a - |head|, tag);
      PrefixLength(ts, j, tag);
      j := j + 1;
    }
  }

  lemma {:induction false} SubstAllAppend(a: seq<Tok>, b: seq<Tok>, ms: seq<string>, n: nat)
    requires n <= |ms|
    ensures SubstAll(a + b, ms, n) == SubstAll(a, ms, n) + SubstAll(b, ms, n)
  {
    if a == [] {
      assert a + b == b;
    } else {
      assert (a + b)[1..] == a[1..] + b;
      SubstAllAppend(a[1..], b, ms, n);
    }
  }

  lemma SubstAllOther(p: nat, ms: seq<string>, n: nat)
    requires n <= |ms| && n <= p
    ensures SubstAll([P(p)], ms, n) == [P(p)]
  {
    assert [P(p)][1..] == [];
  }

  lemma SubstAllAround(l: seq<Tok>, p: nat, r: seq<Tok>, ms: seq<string>, n: nat)
    requires n <= |ms| && n <= p
    ensures SubstAll(l + [P(p)] + r, ms, n) == SubstAll(l, ms, n) + [P(p)] + SubstAll(r, ms, n)
  {
    SubstAllAppend(l + [P(p)], r, ms, n);
    SubstAllAppend(l, [P(p)], ms, n);
    SubstAllOther(p, ms, n);
  }

  /** A run of characters ends before a placeholder token. */
  lemma RunEndsBefore(l: seq<Tok>, p: nat, r: seq<Tok>, i: nat, w: string)
    requires i <= |l| && Chars(w) <= (l + [P(p)] + r)[i..]
    ensures Chars(w) <= l[i..]
  {
    var all := l + [P(p)] + r;
    forall y | 0 <= y < |w| ensures all[i + y] == C(w[y]) { assert all[i..][y] == Chars(w)[y]; }
    assert all[|l|] == P(p);
    assert i + |w| <= |l|;
  }

  /** A spelled-out placeholder cannot run across a placeholder token. */
  lemma NoRawAround(l: seq<Tok>, p: nat, r: seq<Tok>, k: nat, tag: Tags)
    requires NoRaw(l, k, tag) && NoRaw(r, k, tag)
    ensures NoRaw(l + [P(p)] + r, k, tag)
  {
    var all := l + [P(p)] + r;
    forall i | 0 <= i <= |all| ensures !StartsRaw(all[i..], k, tag) {
      if i > |l| {
        assert all[i..] == r[i - |l| - 1..];
      } else if StartsRaw(all[i..], k, tag) {
        RunEndsBefore(l, p, r, i, tag.name(k));
      }
    }
  }

  predicate NoClose(s: string) { forall i :: 0 <= i < |s| ==> s[i] != ']' }
  predicate NoOpen(s: string) { forall i :: 0 <= i < |s| ==> s[i] != '[' }

  /** The two pieces of a placeholder that was hit. */
  lemma Pieces(t: string, off: nat, n: nat)
    requires Bracketed(t) && 0 < off && off + n < |t|
    ensures NoClose(t[..off]) && NoOpen(t[off + n..])
  {
  }

  lemma LeftAround(a: seq<Tok>, u: string, v: string, b: seq<Tok>, k: nat)
    requires LeftFrom(a, 0, k) && LeftFrom(b, 0, k)
    ensures LeftFrom(a + Chars(u) + [P(k)] + (Chars(v) + b), 0, k + 1)
  {
  }

  lemma BrokenText(a: seq<Tok>, u: string, v: string, b: seq<Tok>, ms: seq<string>, m: string, tag: Tags)
    requires LeftFrom(a, 0, |ms|) && LeftFrom(b, 0, |ms|)
    ensures var l, r, more := a + Chars(u), Chars(v) + b, ms + [m];
            && Expand(l, more) == Expand(a, ms) + u && Expand(r, more) == v + Expand(b, ms)
            && Render(l + [P(|ms|)] + r, tag) == Render(a, tag) + u + tag.name(|ms|) + (v + Render(b, tag))
            && Expand(l + [P(|ms|)] + r, more) == Expand(a, ms) + u + m + (v + Expand(b, ms))
  {
    var l, r, more := a + Chars(u), Chars(v) + b, ms + [m];
    ExpandMore(a, ms, m);
    ExpandMore(b, ms, m);
    ExpandAppend(a, Chars(u), more);
    ExpandAppend(Chars(v), b, more);
    ExpandChars(u, more);
    ExpandChars(v, more);
    RenderAppend(a, Chars(u), tag);
    RenderAppend(Chars(v), b, tag);
    RenderChars(u, tag);
    RenderChars(v, tag);
    Parts(l, [P(|ms|)], r, more, tag);
    OneTok(P(|ms|), more, tag);
  }

  lemma Slices(x: string, t: string, z: string, off: nat, n: nat)
    requires off + n <= |t|
    ensures (x + t + z)[..|x| + off] == x + t[..off]
    ensures (x + t + z)[|x| + off + n..] == t[off + n..] + z
    ensures (x + t + z)[|x| + off..|x| + off + n] == t[off..off + n]
  {
  }

  lemma HitText(x: string, t: string, z: string, off: nat, m: string, replacement: string)
    requires off + |m| <= |t|
    requires Index(x + t + z, m) == |x| + off
    ensures ReplaceOnce(x + t + z, m, replacement) == x + t[..off] + replacement + (t[off + |m|..] + z)
    ensures t[off..off + |m|] == m
  {
    IndexIsFirst(x + t + z, m);
    Slices(x, t, z, off, |m|);
  }

  lemma StillMarked(x: string, t: string, z: string)
    requires Marked(t)
    ensures Occurs(MARKER, x + t + z, |x|)
  {
    assert (x + t + z)[|x|..|x| + |MARKER|] == t[..|MARKER|];
  }

  lemma OneMatchMore(prompt: string, ms: seq<string>, m: string, tag: Tags)
    ensures AlwaysOutside(prompt, ms + [m], tag) <==>
            AlwaysOutside(prompt, ms, tag) && !HitsInside(Sanitized(prompt, ms, tag), m, |ms|, tag)
  {
    assert (ms + [m])[..|ms|] == ms;
  }

  // ---------- What sanitizing leaves, hit placeholders included ----------

  /** The tokens account for the restoring of the text: when the turn of placeholder n comes it is
      nowhere spelled out, and placeholders yet to come are not even in the restored text. */
  ghost predicate Tracks(ts: seq<Tok>, ms: seq<string>, tag: Tags) {
    && LeftFrom(ts, 0, |ms|)
    && (forall n :: 0 <= n < |ms| ==> NoRaw(SubstAll(ts, ms, n), n, tag))
    && (forall n :: n >= |ms| ==> NoTag(Expand(ts, ms), n, tag))
  }

  lemma TracksRestores(ts: seq<Tok>, ms: seq<string>, tag: Tags)
    requires Sound(tag) && Tracks(ts, ms, tag)
    ensures Restored(Render(ts, tag), MappingOf(ms, tag), |ms|) == Expand(ts, ms)
  {
    forall n | 0 <= n < |ms| ensures Pass(ts, ms, n, tag) { PassIfNoRaw(ts, ms, n, tag); }
    RestoreAll(ts, ms, tag);
  }

  lemma {:induction false} SubstAllMore(ts: seq<Tok>, ms: seq<string>, m: string, n: nat)
    requires n <= |ms|
    ensures SubstAll(ts, ms + [m], n) == SubstAll(ts, ms, n)
  {
    if ts != [] { SubstAllMore(ts[1..], ms, m, n); }
  }

  lemma {:induction false} SubstAllChars(x: string, ms: seq<string>, n: nat)
    requires n <= |ms|
    ensures SubstAll(Chars(x), ms, n) == Chars(x)
  {
    if x != "" {
      assert Chars(x)[1..] == Chars(x[1..]);
      SubstAllChars(x[1..], ms, n);
      assert [C(x[0])] + Chars(x[1..]) == Chars(x);
    }
  }

  lemma NoRawParts(x: seq<Tok>, y: seq<Tok>, z: seq<Tok>, k: nat, tag: Tags)
    requires NoRaw(x + y + z, k, tag)
    ensures NoRaw(x, k, tag) && NoRaw(z, k, tag)
  {
    var all := x + y + z;
    forall i | 0 <= i <= |x| ensures !StartsRaw(x[i..], k, tag) {
      assert all[i..] == x[i..] + y + z;
      assert !StartsRaw(all[i..], k, tag);
    }
    forall i | 0 <= i <= |z| ensures !StartsRaw(z[i..], k, tag) {
      assert all[|x| + |y| + i..] == z[i..];
      assert !StartsRaw(all[|x| + |y| + i..], k, tag);
    }
  }

  lemma RawEndsBefore(x: seq<Tok>, u: string, t: string, i: nat)
    requires Bracketed(t) && NoClose(u) && i <= |x| + |u| && Chars(t) <= (x + Chars(u))[i..]
    ensures i <= |x| && Chars(t) <= x[i..]
  {
    var all, e := x + Chars(u), i + |t| - 1;
    assert all[e] == all[i..][|t| - 1] == Chars(t)[|t| - 1] == C(']');
    assert x[i..][..|t|] == all[i..][..|t|];
  }

  lemma RawStartsAfter(v: string, x: seq<Tok>, t: string, i: nat)
    requires Bracketed(t) && NoOpen(v) && i <= |v| + |x| && Chars(t) <= (Chars(v) + x)[i..]
    ensures i >= |v| && Chars(t) <= x[i - |v|..]
  {
    var all := Chars(v) + x;
    assert all[i] == all[i..][0] == Chars(t)[0] == C('[');
    assert all[i..] == x[i - |v|..];
  }

  /** Text cut off before its closing bracket, or after its opening one, completes no placeholder. */
  lemma NoRawLeft(x: seq<Tok>, u: string, k: nat, tag: Tags)
    requires Sound(tag) && NoRaw(x, k, tag) && NoClose(u)
    ensures NoRaw(x + Chars(u), k, tag)
  {
    var all := x + Chars(u);
    forall i | 0 <= i <= |all| ensures !StartsRaw(all[i..], k, tag) {
      if StartsRaw(all[i..], k, tag) { RawEndsBefore(x, u, tag.name(k), i); }
    }
  }

  lemma NoRawRight(v: string, x: seq<Tok>, k: nat, tag: Tags)
    requires Sound(tag) && NoRaw(x, k, tag) && NoOpen(v)
    ensures NoRaw(Chars(v) + x, k, tag)
  {
    var all := Chars(v) + x;
    forall i | 0 <= i <= |all| ensures !StartsRaw(all[i..], k, tag) {
      if StartsRaw(all[i..], k, tag) { RawStartsAfter(v, x, tag.name(k), i); }
    }
  }

  /** Two bracketed texts do not overlap. */
  lemma NoOverlap(x: string, t: string, z: string, w: string, i: int)
    requires Bracketed(t) && Bracketed(w) && Occurs(w, x + t + z, i)
    ensures i + |w| <= |x| || i == |x| || i >= |x| + |t|
  {
    var s := x + t + z;
    assert forall y :: 0 <= y < |w| ==> s[i + y] == s[i..i + |w|][y] == w[y];
    assert forall y :: 0 <= y < |t| ==> s[|x| + y] == t[y];
    assert s[i + 0] == '[' && s[|x| + 0] == '[';
    assert |x| <= i < |x| + |t| ==> s[|x| + (i - |x|)] == t[i - |x|];
    assert i <= |x| < i + |w| ==> s[i + (|x| - i)] == w[|x| - i];
  }

  lemma OccursAround(x: string, t: string, z: string, w: string, i: int)
    requires Bracketed(t) && Bracketed(w) && t != w && Occurs(w, x + t + z, i)
    ensures Occurs(w, x, i) || Occurs(w, z, i - |x| - |t|)
  {
    var s := x + t + z;
    NoOverlap(x, t, z, w, i);
    NotSame(x, t, z, w);
    if i + |w| <= |x| {
      assert x[i..i + |w|] == s[i..i + |w|];
    } else {
      assert z[i - |x| - |t|..i - |x| - |t| + |w|] == s[i..i + |w|];
    }
  }

  /** A different placeholder put between two texts makes no third one. */
  lemma NoTagAround(x: string, t: string, z: string, n: nat, tag: Tags)
    requires Sound(tag) && Bracketed(t) && t != tag.name(n) && NoTag(x, n, tag) && NoTag(z, n, tag)
    ensures NoTag(x + t + z, n, tag)
  {
    forall i ensures !Occurs(tag.name(n), x + t + z, i) {
      if Occurs(tag.name(n), x + t + z, i) { OccursAround(x, t, z, tag.name(n), i); }
    }
  }

  lemma NotSame(x: string, t: string, z: string, w: string)
    requires Bracketed(t) && Bracketed(w) && t != w
    ensures !Occurs(w, x + t + z, |x|)
  {
    var s := x + t + z;
    assert s[|x|..] == t + z;
    if Occurs(w, s, |x|) {
      assert w == (t + z)[..|w|];
      BracketedPrefix(w, t, z);
    }
  }

  lemma NoTagParts(x: string, y: string, z: string, n: nat, tag: Tags)
    requires NoTag(x + y + z, n, tag)
    ensures NoTag(x, n, tag) && NoTag(z, n, tag)
  {
    var s, t := x + y + z, tag.name(n);
    forall i | Occurs(t, x, i) ensures Occurs(t, s, i) { assert s[i..i + |t|] == x[i..i + |t|]; }
    forall i | Occurs(t, z, i) ensures Occurs(t, s, |x| + |y| + i) {
      assert s[|x| + |y| + i..|x| + |y| + i + |t|] == z[i..i + |t|];
    }
  }

  /** Enough for one more match: what was not spelled out before is not, and nothing new is in the text. */
  lemma TracksOneMore(next: seq<Tok>, ms: seq<string>, m: string, tag: Tags)
    requires LeftFrom(next, 0, |ms| + 1)
    requires forall n :: 0 <= n < |ms| ==> NoRaw(SubstAll(next, ms + [m], n), n, tag)
    requires forall n :: n >= |ms| ==> NoTag(Expand(next, ms + [m]), n, tag)
    ensures Tracks(next, ms + [m], tag)
  {
    var more, k := ms + [m], |ms|;
    SubstAllExpands(next, more, k);
    NoRawFrom(SubstAll(next, more, k), more, k, tag);
    forall n | 0 <= n < |more| ensures NoRaw(SubstAll(next, more, n), n, tag) { }
  }

  /** The match is nowhere. */
  lemma StepMissing(ts: seq<Tok>, ms: seq<string>, m: string, tag: Tags)
    requires Tracks(ts, ms, tag)
    ensures Tracks(ts, ms + [m], tag) && Expand(ts, ms + [m]) == Expand(ts, ms)
  {
    ExpandMore(ts, ms, m);
    forall n | 0 <= n < |ms| ensures NoRaw(SubstAll(ts, ms + [m], n), n, tag) { SubstAllMore(ts, ms, m, n); }
    TracksOneMore(ts, ms, m, tag);
  }

  /** A run of characters is replaced by the next placeholder. */
  lemma StepOnChars(a: seq<Tok>, m: string, b: seq<Tok>, ms: seq<string>, tag: Tags)
    requires Tracks(a + Chars(m) + b, ms, tag)
    ensures var next, more := a + [P(|ms|)] + b, ms + [m];
            Tracks(next, more, tag) && Expand(next, more) == Expand(a + Chars(m) + b, ms)
  {
    var ts, next, more := a + Chars(m) + b, a + [P(|ms|)] + b, ms + [m];
    LeftParts(a, Chars(m), b, 0, |ms|);
    LeftParts(a, [P(|ms|)], b, 0, |ms| + 1);
    ReplaceRunText(a, m, b, ms, tag);
    forall n | 0 <= n < |ms| ensures NoRaw(SubstAll(next, more, n), n, tag) {
      RunApart(a, m, b, ms, n, tag);
      SubstAllAround(a, |ms|, b, more, n);
      NoRawAround(SubstAll(a, more, n), |ms|, SubstAll(b, more, n), n, tag);
    }
    TracksOneMore(next, ms, m, tag);
  }

  lemma RunApart(a: seq<Tok>, m: string, b: seq<Tok>, ms: seq<string>, n: nat, tag: Tags)
    requires n < |ms| && NoRaw(SubstAll(a + Chars(m) + b, ms, n), n, tag)
    ensures NoRaw(SubstAll(a, ms + [m], n), n, tag) && NoRaw(SubstAll(b, ms + [m], n), n, tag)
  {
    SubstAllAppend(a + Chars(m), b, ms, n);
    SubstAllAppend(a, Chars(m), ms, n);
    NoRawParts(SubstAll(a, ms, n), SubstAll(Chars(m), ms, n), SubstAll(b, ms, n), n, tag);
    SubstAllMore(a, ms, m, n);
    SubstAllMore(b, ms, m, n);
  }

  /** A placeholder is hit: its two pieces are characters now, with the next placeholder between them. */
  lemma StepWithin(a: seq<Tok>, q: nat, b: seq<Tok>, u: string, m: string, v: string, ms: seq<string>, tag: Tags)
    requires Sound(tag) && Tracks(a + [P(q)] + b, ms, tag) && q < |ms|
    requires tag.name(q) == u + m + v && NoClose(u) && NoOpen(v)
    ensures var next, more := a + Chars(u) + [P(|ms|)] + (Chars(v) + b), ms + [m];
            Tracks(next, more, tag) && Expand(next, more) == Expand(a, ms) + tag.name(q) + Expand(b, ms)
  {
    var next, more := a + Chars(u) + [P(|ms|)] + (Chars(v) + b), ms + [m];
    LeftParts(a, [P(q)], b, 0, |ms|);
    LeftAround(a, u, v, b, |ms|);
    PiecesExpand(a, b, u, m, v, ms, tag);
    BrokenExpands(a, q, b, ms, tag);
    forall n | 0 <= n < |ms| ensures NoRaw(SubstAll(next, more, n), n, tag) {
      PiecesNotRaw(a, q, b, u, v, ms, m, n, tag);
    }
    TracksOneMore(next, ms, m, tag);
  }

  lemma PiecesExpand(a: seq<Tok>, b: seq<Tok>, u: string, m: string, v: string, ms: seq<string>, tag: Tags)
    requires LeftFrom(a, 0, |ms|) && LeftFrom(b, 0, |ms|)
    ensures Expand(a + Chars(u) + [P(|ms|)] + (Chars(v) + b), ms + [m]) == Expand(a, ms) + (u + m + v) + Expand(b, ms)
  {
    BrokenText(a, u, v, b, ms, m, tag);
    Regroup(Expand(a, ms), u, m, v, Expand(b, ms));
  }

  lemma Regroup(x: string, u: string, m: string, v: string, z: string)
    ensures x + u + m + (v + z) == x + (u + m + v) + z
  {
  }

  lemma PiecesNotRaw(a: seq<Tok>, q: nat, b: seq<Tok>, u: string, v: string, ms: seq<string>, m: string, n: nat,
                     tag: Tags)
    requires Sound(tag) && n < |ms| && NoRaw(SubstAll(a + [P(q)] + b, ms, n), n, tag) && NoClose(u) && NoOpen(v)
    ensures NoRaw(SubstAll(a + Chars(u) + [P(|ms|)] + (Chars(v) + b), ms + [m], n), n, tag)
  {
    var l, r, more := a + Chars(u), Chars(v) + b, ms + [m];
    PiecesApart(a, q, b, u, v, ms, m, n, tag);
    SubstAllAround(l, |ms|, r, more, n);
    NoRawAround(SubstAll(l, more, n), |ms|, SubstAll(r, more, n), n, tag);
  }

  lemma PiecesApart(a: seq<Tok>, q: nat, b: seq<Tok>, u: string, v: string, ms: seq<string>, m: string, n: nat,
                    tag: Tags)
    requires Sound(tag) && n < |ms| && NoRaw(SubstAll(a + [P(q)] + b, ms, n), n, tag) && NoClose(u) && NoOpen(v)
    ensures NoRaw(SubstAll(a + Chars(u), ms + [m], n), n, tag) && NoRaw(SubstAll(Chars(v) + b, ms + [m], n), n, tag)
  {
    SubstAllAppend(a + [P(q)], b, ms, n);
    SubstAllAppend(a, [P(q)], ms, n);
    NoRawParts(SubstAll(a, ms, n), SubstAll([P(q)], ms, n), SubstAll(b, ms, n), n, tag);
    SubstAllMore(a, ms, m, n);
    SubstAllMore(b, ms, m, n);
    SubstAllAppend(a, Chars(u), ms + [m], n);
    SubstAllAppend(Chars(v), b, ms + [m], n);
    SubstAllChars(u, ms + [m], n);
    SubstAllChars(v, ms + [m], n);
    NoRawLeft(SubstAll(a, ms, n), u, n, tag);
    NoRawRight(v, SubstAll(b, ms, n), n, tag);
  }

  /** The hit placeholder is in the restored text, but no later one is. */
  lemma BrokenExpands(a: seq<Tok>, q: nat, b: seq<Tok>, ms: seq<string>, tag: Tags)
    requires Sound(tag) && Tracks(a + [P(q)] + b, ms, tag) && q < |ms|
    ensures forall n :: n >= |ms| ==> NoTag(Expand(a, ms) + tag.name(q) + Expand(b, ms), n, tag)
  {
    Parts(a, [P(q)], b, ms, tag);
    OneTok(P(q), ms, tag);
    forall n | n >= |ms| ensures NoTag(Expand(a, ms) + tag.name(q) + Expand(b, ms), n, tag) {
      NoTagParts(Expand(a, ms), ms[q], Expand(b, ms), n, tag);
      assert tag.number(tag.name(q)) == q && tag.number(tag.name(n)) == n;
      NoTagAround(Expand(a, ms), tag.name(q), Expand(b, ms), n, tag);
    }
  }

  // ---------- Every step ----------

  /** The first occurrence of the match is inside the placeholder of some token. */
  ghost predicate Inside(ts: seq<Tok>, m: string, tag: Tags) {
    var i := Index(Render(ts, tag), m);
    i >= 0 && exists j: nat :: WithinTag(ts, j, i, |m|, tag)
  }

  /** Each match found is on characters or inside a placeholder. */
  lemma FoundOnChars(ts: seq<Tok>, m: string, tag: Tags) returns (j: nat)
    requires Sound(tag) && BracketFree(m) && Index(Render(ts, tag), m) >= 0 && !Inside(ts, m, tag)
    ensures OnChars(ts, j, Index(Render(ts, tag), m), m, tag)
  {
    var s := Render(ts, tag);
    IndexIsFirst(s, m);
    j := 0;
    if m == "" {
      PrefixOccurs(m, s);
      assert ts[..0] == [] && ts[0..0] == Chars(m);
    } else {
      j := Locate(ts, m, Index(s, m), tag);
    }
  }

  lemma OutsideStep(ts: seq<Tok>, ms: seq<string>, m: string, tag: Tags) returns (next: seq<Tok>)
    requires Sound(tag) && Tracks(ts, ms, tag) && BracketFree(m) && !Inside(ts, m, tag)
    ensures Tracks(next, ms + [m], tag) && Render(next, tag) == ReplaceOnce(Render(ts, tag), m, tag.name(|ms|))
    ensures Expand(next, ms + [m]) == Expand(ts, ms)
  {
    if Index(Render(ts, tag), m) < 0 {
      StepMissing(ts, ms, m, tag);
      next := ts;
    } else {
      var j := FoundOnChars(ts, m, tag);
      var a, b := ts[..j], ts[j + |m|..];
      assert ts == a + Chars(m) + b;
      LeftParts(a, Chars(m), b, 0, |ms|);
      StepOnChars(a, m, b, ms, tag);
      ReplaceRunText(a, m, b, ms, tag);
      next := a + [P(|ms|)] + b;
      Cut(Render(a, tag), m, Render(b, tag));
    }
  }

  lemma InsideStep(ts: seq<Tok>, ms: seq<string>, m: string, tag: Tags) returns (next: seq<Tok>)
    requires Sound(tag) && Tracks(ts, ms, tag) && Inside(ts, m, tag)
    ensures Tracks(next, ms + [m], tag) && Render(next, tag) == ReplaceOnce(Render(ts, tag), m, tag.name(|ms|))
    ensures !NoMarker(Expand(next, ms + [m]))
  {
    var i := Index(Render(ts, tag), m);
    var j: nat :| WithinTag(ts, j, i, |m|, tag);
    var a, b, q := ts[..j], ts[j + 1..], ts[j].k;
    assert ts == a + [P(q)] + b;
    assert q < |ms|;
    next := HitStep(a, q, b, i - |Render(a, tag)|, ms, m, tag);
  }

  lemma HitStep(a: seq<Tok>, q: nat, b: seq<Tok>, off: nat, ms: seq<string>, m: string, tag: Tags)
    returns (next: seq<Tok>)
    requires Sound(tag) && Tracks(a + [P(q)] + b, ms, tag) && q < |ms|
    requires 0 < off && off + |m| < |tag.name(q)| && Index(Render(a + [P(q)] + b, tag), m) == |Render(a, tag)| + off
    ensures Tracks(next, ms + [m], tag)
    ensures Render(next, tag) == ReplaceOnce(Render(a + [P(q)] + b, tag), m, tag.name(|ms|))
    ensures !NoMarker(Expand(next, ms + [m]))
  {
    var t := tag.name(q);
    var u, v := t[..off], t[off + |m|..];
    LeftParts(a, [P(q)], b, 0, |ms|);
    HitRender(a, q, b, off, ms, m, tag);
    Pieces(t, off, |m|);
    StepWithin(a, q, b, u, m, v, ms, tag);
    next := a + Chars(u) + [P(|ms|)] + (Chars(v) + b);
    StillMarked(Expand(a, ms), t, Expand(b, ms));
  }

  lemma HitRender(a: seq<Tok>, q: nat, b: seq<Tok>, off: nat, ms: seq<string>, m: string, tag: Tags)
    requires LeftFrom(a, 0, |ms|) && LeftFrom(b, 0, |ms|) && off + |m| <= |tag.name(q)|
    requires Index(Render(a + [P(q)] + b, tag), m) == |Render(a, tag)| + off
    ensures var t := tag.name(q);
            var u, v := t[..off], t[off + |m|..];
            && t == u + m + v
            && Render(a + Chars(u) + [P(|ms|)] + (Chars(v) + b), tag) ==
               ReplaceOnce(Render(a + [P(q)] + b, tag), m, tag.name(|ms|))
  {
    var t := tag.name(q);
    var u, v := t[..off], t[off + |m|..];
    Parts(a, [P(q)], b, ms, tag);
    OneTok(P(q), ms, tag);
    HitText(Render(a, tag), t, Render(b, tag), off, m, tag.name(|ms|));
    assert t == u + t[off..off + |m|] + v;
    BrokenText(a, u, v, b, ms, m, tag);
  }

  /** As long as the restored text has no marker, a match hits a placeholder exactly when the text says so. */
  lemma InsideIsHit(ts: seq<Tok>, ms: seq<string>, m: string, tag: Tags)
    requires Sound(tag) && LeftFrom(ts, 0, |ms|) && NoMarker(Expand(ts, ms))
    ensures Inside(ts, m, tag) <==> HitsInside(Render(ts, tag), m, |ms|, tag)
  {
    var s := Render(ts, tag);
    var i := Index(s, m);
    if Inside(ts, m, tag) {
      var j: nat :| WithinTag(ts, j, i, |m|, tag);
      TagOfToken(ts, j, tag);
    }
    if HitsInside(s, m, |ms|, tag) {
      var q, at :| 0 <= q < |ms| && Occurs(tag.name(q), s, at) && at < i && i + |m| < at + |tag.name(q)|;
      NoMarkerNoTag(Expand(ts, ms), q, tag);
      NoRawFrom(ts, ms, q, tag);
      var j := LocateTag(ts, q, at, tag);
      assert WithinTag(ts, j, i, |m|, tag);
    }
  }

  lemma NoTracks(prompt: string, tag: Tags)
    requires Sound(tag) && NoMarker(prompt)
    ensures var ts := Chars(prompt); Tracks(ts, [], tag) && Render(ts, tag) == prompt && Expand(ts, []) == prompt
  {
    RenderChars(prompt, tag);
    ExpandChars(prompt, []);
    forall n: nat ensures NoTag(prompt, n, tag) { NoMarkerNoTag(prompt, n, tag); }
  }

  /** The sanitized text as tokens: they expand to the prompt, or to a text with the marker once a match
      was found inside a placeholder. */
  lemma {:induction false} SanitizedTracks(prompt: string, ms: seq<string>, tag: Tags) returns (ts: seq<Tok>)
    requires Sound(tag) && NoMarker(prompt) && AllBracketFree(ms)
    ensures Tracks(ts, ms, tag) && Render(ts, tag) == Sanitized(prompt, ms, tag)
    ensures if AlwaysOutside(prompt, ms, tag) then Expand(ts, ms) == prompt else !NoMarker(Expand(ts, ms))
    decreases |ms|
  {
    if ms == [] {
      ts := Chars(prompt);
      NoTracks(prompt, tag);
    } else {
      var before, m := ms[..|ms| - 1], ms[|ms| - 1];
      assert before + [m] == ms;
      ts := SanitizedTracks(prompt, before, tag);
      OneMatchMore(prompt, before, m, tag);
      SanitizedSnoc(prompt, before, m, tag);
      if AlwaysOutside(prompt, before, tag) { InsideIsHit(ts, before, m, tag); }
      if Inside(ts, m, tag) {
        ts := InsideStep(ts, before, m, tag);
      } else {
        ts := OutsideStep(ts, before, m, tag);
      }
    }
  }

  ghost predicate RoundTrips(prompt: string, ms: seq<string>, tag: Tags) {
    Restored(Sanitized(prompt, ms, tag), MappingOf(ms, tag), |ms|) == prompt
  }

  /** Exactly: the prompt is given back if and only if no match was ever found inside an earlier placeholder. */
  lemma RoundTripExact(prompt: string, ms: seq<string>, tag: Tags)
    requires Sound(tag) && NoMarker(prompt) && AllBracketFree(ms)
    ensures RoundTrips(prompt, ms, tag) <==> AlwaysOutside(prompt, ms, tag)
  {
    var ts := SanitizedTracks(prompt, ms, tag);
    TracksRestores(ts, ms, tag);
  }

  // ---------- A condition on the matches alone ----------

  ghost predicate Contains(s: string, m: string) { exists i :: Occurs(m, s, i) }

  /** No match is part of what the placeholders of earlier matches say between their brackets. */
  ghost predicate Foreign(ms: seq<string>) {
    forall k, q :: 0 <= q < k < |ms| ==> !Contains(Interior(q), ms[k])
  }

  lemma InnerPart(s: string, a: nat, q: nat, i: nat, m: string)
    requires Occurs(Tag(q), s, a) && Occurs(m, s, i) && a < i && i + |m| < a + |Tag(q)|
    ensures Contains(Interior(q), m)
  {
    var t, x, d := Tag(q), Interior(q), i - a - 1;
    assert |t| == |x| + 2 && t == s[a..a + |t|];
    forall y | 0 <= y < |m| ensures x[d + y] == m[y] {
      assert x[d + y] == t[d + y + 1] == s[i + y] == s[i..i + |m|][y];
    }
    assert x[d..d + |m|] == m;
    assert Occurs(m, x, d);
  }

  lemma ForeignIsNotInside(s: string, m: string, n: nat)
    requires forall q :: 0 <= q < n ==> !Contains(Interior(q), m)
    ensures !HitsInside(s, m, n, TAGS)
  {
    IndexIsFirst(s, m);
    if HitsInside(s, m, n, TAGS) {
      var q, a :| 0 <= q < n && Occurs(Tag(q), s, a) && a < Index(s, m) && Index(s, m) + |m| < a + |Tag(q)|;
      InnerPart(s, a, q, Index(s, m), m);
    }
  }

  lemma {:induction false} ForeignIsOutside(prompt: string, ms: seq<string>)
    requires Foreign(ms)
    ensures AlwaysOutside(prompt, ms, TAGS)
    decreases |ms|
  {
    if ms != [] {
      var n := |ms| - 1;
      assert Foreign(ms[..n]);
      ForeignIsOutside(prompt, ms[..n]);
      ForeignIsNotInside(Sanitized(prompt, ms[..n], TAGS), ms[n], n);
    }
  }

  /** The round trip for every prompt without the marker and every list of bracket-free matches that
      are not part of a placeholder, wherever the matches first occur. */
  lemma PiiRoundTrip(prompt: string, ms: seq<string>)
    requires NoMarker(prompt) && AllBracketFree(ms) && Foreign(ms)
    ensures Restored(Sanitized(prompt, ms, TAGS), MappingOf(ms, TAGS), |ms|) == prompt
  {
    TagsAreSound();
    ForeignIsOutside(prompt, ms);
    RoundTripExact(prompt, ms, TAGS);
  }
}
