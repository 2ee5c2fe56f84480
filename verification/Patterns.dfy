/** The six patterns PII is found by (sdk/client.go:692-699), as regular expressions, and what that means for
    the round trip: it holds for every prompt until a card number can spell the number of an earlier
    placeholder, which is from placeholder 34000000 on. */
module Patterns {
  import opened Pii

  // ---------- Regular expressions ----------

  datatype Re =
    | One(chars: set<char>)
    | Cat(first: Re, then_: Re)
    | Alt(left: Re, right: Re)
    | Opt(body: Re)
    | Many(body: Re, least: nat, open: bool) // exactly `least`, or more if `open`

  function Size(re: Re): nat {
    match re
    case One(_) => 0
    case Cat(a, b) => 1 + Size(a) + Size(b)
    case Alt(a, b) => 1 + Size(a) + Size(b)
    case Opt(r) => 1 + Size(r)
    case Many(r, _, _) => 1 + Size(r)
  }

  function Turns(re: Re): nat { if re.Many? then re.least else 0 }

  /** The whole text matches. Word boundaries only restrict where a match may lie. */
  ghost predicate Matches(re: Re, s: string)
    decreases Size(re), Turns(re), |s|
  {
    match re
    case One(cs) => |s| == 1 && s[0] in cs
    case Cat(a, b) => exists i :: 0 <= i <= |s| && Matches(a, s[..i]) && Matches(b, s[i..])
    case Alt(a, b) => Matches(a, s) || Matches(b, s)
    case Opt(r) => s == "" || Matches(r, s)
    case Many(r, n, open) =>
      if n > 0 then exists i :: 0 <= i <= |s| && Matches(r, s[..i]) && Matches(Many(r, n - 1, open), s[i..])
      else s == "" || (open && exists i :: 0 < i <= |s| && Matches(r, s[..i]) && Matches(Many(r, 0, open), s[i..]))
  }

  // ---------- Counting characters ----------

  function Count(s: string, cs: set<char>): nat {
    if s == "" then 0 else (if s[0] in cs then 1 else 0) + Count(s[1..], cs)
  }

  lemma {:induction false} CountAppend(a: string, b: string, cs: set<char>)
    ensures Count(a + b, cs) == Count(a, cs) + Count(b, cs)
  {
    if a == "" {
      assert a + b == b;
    } else {
      assert (a + b)[1..] == a[1..] + b;
      CountAppend(a[1..], b, cs);
    }
  }

  lemma CountSplit(s: string, i: nat, cs: set<char>)
    requires i <= |s|
    ensures Count(s, cs) == Count(s[..i], cs) + Count(s[i..], cs)
  {
    assert s == s[..i] + s[i..];
    CountAppend(s[..i], s[i..], cs);
  }

  /** At least so many characters of a match are among `cs`. */
  function Least(re: Re, cs: set<char>): nat {
    match re
    case One(ds) => if ds <= cs then 1 else 0
    case Cat(a, b) => Least(a, cs) + Least(b, cs)
    case Alt(a, b) => if Least(a, cs) < Least(b, cs) then Least(a, cs) else Least(b, cs)
    case Opt(_) => 0
    case Many(r, n, _) => n * Least(r, cs)
  }

  lemma {:induction false} LeastCounted(re: Re, s: string, cs: set<char>)
    requires Matches(re, s)
    ensures Count(s, cs) >= Least(re, cs)
    decreases Size(re), Turns(re), |s|
  {
    match re
    case One(_) => assert s[1..] == "";
    case Cat(a, b) =>
      var i :| 0 <= i <= |s| && Matches(a, s[..i]) && Matches(b, s[i..]);
      LeastCounted(a, s[..i], cs);
      LeastCounted(b, s[i..], cs);
      CountSplit(s, i, cs);
    case Alt(a, b) => if Matches(a, s) { LeastCounted(a, s, cs); } else { LeastCounted(b, s, cs); }
    case Opt(_) =>
    case Many(r, n, open) =>
      if n > 0 {
        var i :| 0 <= i <= |s| && Matches(r, s[..i]) && Matches(Many(r, n - 1, open), s[i..]);
        LeastCounted(r, s[..i], cs);
        LeastCounted(Many(r, n - 1, open), s[i..], cs);
        CountSplit(s, i, cs);
        assert n * Least(r, cs) == Least(r, cs) + (n - 1) * Least(r, cs);
      }
  }

  /** A match has no character of `cs`. */
  predicate Avoids(re: Re, cs: set<char>) {
    match re
    case One(ds) => ds !! cs
    case Cat(a, b) => Avoids(a, cs) && Avoids(b, cs)
    case Alt(a, b) => Avoids(a, cs) && Avoids(b, cs)
    case Opt(r) => Avoids(r, cs)
    case Many(r, _, _) => Avoids(r, cs)
  }

  lemma {:induction false} AvoidsCounted(re: Re, s: string, cs: set<char>)
    requires Matches(re, s) && Avoids(re, cs)
    ensures Count(s, cs) == 0
    decreases Size(re), Turns(re), |s|
  {
    match re
    case One(_) => assert s[1..] == "";
    case Cat(a, b) =>
      var i :| 0 <= i <= |s| && Matches(a, s[..i]) && Matches(b, s[i..]);
      AvoidsCounted(a, s[..i], cs);
      AvoidsCounted(b, s[i..], cs);
      CountSplit(s, i, cs);
    case Alt(a, b) => if Matches(a, s) { AvoidsCounted(a, s, cs); } else { AvoidsCounted(b, s, cs); }
    case Opt(r) => if s != "" { AvoidsCounted(r, s, cs); }
    case Many(r, n, open) =>
      if n > 0 || s != "" {
        var k := if n > 0 then n - 1 else 0;
        var i :| (if n > 0 then 0 else 1) <= i <= |s| && Matches(r, s[..i]) && Matches(Many(r, k, open), s[i..]);
        AvoidsCounted(r, s[..i], cs);
        AvoidsCounted(Many(r, k, open), s[i..], cs);
        CountSplit(s, i, cs);
      }
  }

  // ---------- The patterns ----------

  const DIGITS: set<char> := {'0', '1', '2', '3', '4', '5', '6', '7', '8', '9'}
  const LETTERS: set<char> := set c: char | 'A' <= c <= 'Z' || 'a' <= c <= 'z'
  const AT: set<char> := {'@'}
  const BRACKETS: set<char> := {'[', ']'}

  function Digits(n: nat): Re { Many(One(DIGITS), n, false) }
  function Sep(): Re { Opt(One({'-', '.', ' ', '\t', '\n', '\U{000C}', '\r'})) }

  function Local(): Re { Many(One(LETTERS + DIGITS + {'.', '_', '%', '+', '-'}), 1, true) }
  function Domain(): Re { Many(One(LETTERS + DIGITS + {'.', '-'}), 1, true) }
  function TopLevel(): Re { Cat(One({'.'}), Many(One(LETTERS), 2, true)) }

  function Email(): Re { Cat(Local(), Cat(One(AT), Cat(Domain(), TopLevel()))) }

  function Ssn(): Re { Cat(Digits(3), Cat(Sep(), Cat(Digits(2), Cat(Sep(), Digits(4))))) }

  function Visa(): Re { Cat(One({'4'}), Digits(3)) }
  function Mastercard(): Re { Cat(One({'5'}), Cat(One({'1', '2', '3', '4', '5'}), Digits(2))) }
  function Amex(): Re { Cat(One({'3'}), Cat(One({'4', '7'}), Digits(2))) }
  function Discover(): Re { Cat(One({'6'}), Cat(One({'0'}), Cat(One({'1'}), One({'1'})))) }
  function Issuer(): Re { Alt(Visa(), Alt(Mastercard(), Alt(Amex(), Discover()))) }

  function Card(): Re { Cat(Issuer(), Many(One(DIGITS), 4, true)) }

  function Mobile(): Re { Cat(One({'1'}), Cat(One(DIGITS - {'0', '1', '2'}), Digits(9))) }

  function IdCard(): Re {
    var century := Alt(Cat(One({'1'}), One({'9'})), Cat(One({'2'}), One({'0'})));
    var month := Alt(Cat(One({'0'}), One(DIGITS - {'0'})), Cat(One({'1'}), One({'0', '1', '2'})));
    var day := Alt(Cat(One({'0'}), One(DIGITS - {'0'})),
                   Alt(Cat(One({'1', '2'}), One(DIGITS)), Cat(One({'3'}), One({'0', '1'}))));
    Cat(One(DIGITS - {'0'}), Cat(Digits(5), Cat(century, Cat(Digits(2), Cat(month, Cat(day,
        Cat(Digits(3), One(DIGITS + {'X', 'x'}))))))))
  }

  function Phone(): Re {
    var start := Cat(One(DIGITS - {'0', '1'}), Digits(2));
    Cat(start, Cat(Sep(), Cat(start, Cat(Sep(), Digits(4)))))
  }

  function PiiPatterns(): seq<Re> { [Email(), Ssn(), Card(), Mobile(), IdCard(), Phone()] }

  /** All digits, eight or more, with the first two of a card. */
  predicate CardLike(m: string) {
    && |m| >= 8 && (forall i :: 0 <= i < |m| ==> m[i] in DIGITS)
    && (m[0] in {'4', '5', '6'} || (m[0] == '3' && m[1] in {'4', '7'}))
  }

  /** Bracket-free, with an at sign, nine digits or a card number. */
  ghost predicate PiiLike(m: string) {
    Count(m, BRACKETS) == 0 && (Count(m, AT) >= 1 || Count(m, DIGITS) >= 9 || CardLike(m))
  }

  lemma DigitsAvoid()
    ensures DIGITS !! BRACKETS && Avoids(Sep(), BRACKETS)
  {
  }

  lemma MailAvoids()
    ensures Avoids(Email(), BRACKETS)
  {
    DigitsAvoid();
  }

  lemma CardAvoids()
    ensures Avoids(Card(), BRACKETS)
  {
    DigitsAvoid();
  }

  lemma IdAvoids()
    ensures Avoids(IdCard(), BRACKETS)
  {
    DigitsAvoid();
  }

  lemma NumbersAvoid(re: Re)
    requires re in [Ssn(), Mobile(), Phone()]
    ensures Avoids(re, BRACKETS)
  {
    DigitsAvoid();
  }

  lemma NoBrackets(p: nat)
    requires p < 6
    ensures Avoids(PiiPatterns()[p], BRACKETS)
  {
    MailAvoids();
    CardAvoids();
    IdAvoids();
    NumbersAvoid(Ssn());
    NumbersAvoid(Mobile());
    NumbersAvoid(Phone());
  }

  lemma LeastDigits(n: nat)
    ensures Least(Digits(n), DIGITS) == n
  {
  }

  lemma EnoughDigits(re: Re)
    requires re in [Ssn(), Mobile(), Phone()]
    ensures Least(re, DIGITS) >= 9
  {
    LeastDigits(2);
    LeastDigits(3);
    LeastDigits(4);
    LeastDigits(9);
  }

  lemma EnoughOfId()
    ensures Least(IdCard(), DIGITS) >= 9
  {
    LeastDigits(2);
    LeastDigits(3);
    LeastDigits(5);
  }

  lemma EnoughOfMail()
    ensures Least(Email(), AT) >= 1
  {
  }

  // ---------- Cards ----------

  lemma CatSplits(a: Re, b: Re, s: string) returns (i: nat)
    requires Matches(Cat(a, b), s)
    ensures i <= |s| && Matches(a, s[..i]) && Matches(b, s[i..])
  {
    i :| 0 <= i <= |s| && Matches(a, s[..i]) && Matches(b, s[i..]);
  }

  /** Digits, exactly or at least so many. */
  lemma {:induction false} ManyAre(cs: set<char>, s: string, n: nat, open: bool)
    requires Matches(Many(One(cs), n, open), s)
    ensures (forall i :: 0 <= i < |s| ==> s[i] in cs) && (if open then |s| >= n else |s| == n)
    decreases n, |s|
  {
    if n > 0 || s != "" {
      var k := if n > 0 then n - 1 else 0;
      var i :|
        (if n > 0 then 0 else 1) <= i <= |s| && Matches(One(cs), s[..i]) && Matches(Many(One(cs), k, open), s[i..]);
      ManyAre(cs, s[i..], k, open);
      assert s == s[..i] + s[i..];
    }
  }

  /** A match that starts with one of `first` and goes on with `second`. */
  lemma StartsWith(first: set<char>, rest: Re, s: string)
    requires Matches(Cat(One(first), rest), s)
    ensures s != "" && s[0] in first && Matches(rest, s[1..])
  {
    var i := CatSplits(One(first), rest, s);
    assert i == 1;
  }

  ghost predicate Prefix(s: string) {
    && |s| == 4 && (forall i :: 0 <= i < 4 ==> s[i] in DIGITS)
    && (s[0] in {'4', '5', '6'} || (s[0] == '3' && s[1] in {'4', '7'}))
  }

  lemma VisaPrefix(s: string)
    requires Matches(Visa(), s)
    ensures Prefix(s)
  {
    StartsWith({'4'}, Digits(3), s);
    ManyAre(DIGITS, s[1..], 3, false);
    assert forall i :: 1 <= i < |s| ==> s[i] == s[1..][i - 1];
  }

  lemma TwoThenDigits(first: set<char>, second: set<char>, s: string)
    requires Matches(Cat(One(first), Cat(One(second), Digits(2))), s)
    ensures |s| == 4 && s[0] in first && s[1] in second && s[2] in DIGITS && s[3] in DIGITS
  {
    StartsWith(first, Cat(One(second), Digits(2)), s);
    StartsWith(second, Digits(2), s[1..]);
    ManyAre(DIGITS, s[1..][1..], 2, false);
    assert s[1] == s[1..][0] && s[2] == s[1..][1..][0] && s[3] == s[1..][1..][1];
  }

  lemma DiscoverPrefix(s: string)
    requires Matches(Discover(), s)
    ensures Prefix(s)
  {
    StartsWith({'6'}, Cat(One({'0'}), Cat(One({'1'}), One({'1'}))), s);
    StartsWith({'0'}, Cat(One({'1'}), One({'1'})), s[1..]);
    StartsWith({'1'}, One({'1'}), s[1..][1..]);
    assert s[1] == s[1..][0] && s[2] == s[1..][1..][0] && s[3] == s[1..][1..][1..][0];
  }

  lemma AltIs(a: Re, b: Re, s: string)
    ensures Matches(Alt(a, b), s) <==> Matches(a, s) || Matches(b, s)
  {
  }

  lemma IssuerPrefix(s: string)
    requires Matches(Issuer(), s)
    ensures Prefix(s)
  {
    AltIs(Visa(), Alt(Mastercard(), Alt(Amex(), Discover())), s);
    if Matches(Visa(), s) {
      VisaPrefix(s);
    } else {
      AltIs(Mastercard(), Alt(Amex(), Discover()), s);
      if Matches(Mastercard(), s) {
        TwoThenDigits({'5'}, {'1', '2', '3', '4', '5'}, s);
      } else {
        AltIs(Amex(), Discover(), s);
        if Matches(Amex(), s) { TwoThenDigits({'3'}, {'4', '7'}, s); } else { DiscoverPrefix(s); }
      }
    }
  }

  lemma CardsAreCardLike(m: string)
    requires Matches(Card(), m)
    ensures CardLike(m)
  {
    var i := CatSplits(Issuer(), Many(One(DIGITS), 4, true), m);
    IssuerPrefix(m[..i]);
    ManyAre(DIGITS, m[i..], 4, true);
    forall k | 0 <= k < |m| ensures m[k] in DIGITS {
      if k < 4 { assert m[k] == m[..i][k]; } else { assert m[k] == m[i..][k - 4]; }
    }
    assert m[0] == m[..i][0] && m[1] == m[..i][1];
  }

  /** Whatever one of the six patterns matches. */
  lemma MatchesArePii(p: nat, m: string)
    requires p < 6 && Matches(PiiPatterns()[p], m)
    ensures PiiLike(m)
  {
    NoBrackets(p);
    AvoidsCounted(PiiPatterns()[p], m, BRACKETS);
    if p == 2 {
      CardsAreCardLike(m);
    } else {
      if p == 0 { EnoughOfMail(); } else if p == 4 { EnoughOfId(); } else { EnoughDigits(PiiPatterns()[p]); }
      LeastCounted(PiiPatterns()[p], m, AT);
      LeastCounted(PiiPatterns()[p], m, DIGITS);
    }
  }

  // ---------- Up to the first card number ----------

  /** The smallest number that is a card number too. */
  const FIRST_CARD: nat := 34_000_000

  lemma PartCounts(x: string, m: string, i: nat, cs: set<char>)
    requires Occurs(m, x, i)
    ensures Count(m, cs) <= Count(x, cs)
  {
    CountSplit(x, i, cs);
    CountSplit(x[i..], |m|, cs);
    assert x[i..][..|m|] == m;
  }

  lemma {:induction false} CountAtMost(s: string, cs: set<char>)
    ensures Count(s, cs) <= |s|
  {
    if s != "" { CountAtMost(s[1..], cs); }
  }

  lemma {:induction false} CountNone(s: string, cs: set<char>)
    ensures Count(s, cs) == 0 <==> forall i :: 0 <= i < |s| ==> s[i] !in cs
  {
    if s != "" {
      CountNone(s[1..], cs);
      assert forall i :: 0 < i < |s| ==> s[i] == s[1..][i - 1];
      assert forall i :: 0 <= i < |s[1..]| ==> s[1..][i] == s[i + 1];
    }
  }

  function Pow10(w: nat): nat { if w == 0 then 1 else 10 * Pow10(w - 1) }

  lemma {:induction false} DecLength(q: nat, w: nat)
    requires w > 0 && q < Pow10(w)
    ensures |Dec(q)| <= w
  {
    if q >= 10 { DecLength(q / 10, w - 1); }
  }

  lemma InteriorCounts(q: nat)
    requires q < FIRST_CARD
    ensures |Dec(q)| <= 8 && Count(Interior(q), AT) == 0 && Count(Interior(q), DIGITS) <= 8
  {
    assert Pow10(4) == 10000 && Pow10(8) == 10000 * Pow10(4);
    DecLength(q, 8);
    CountNone(Interior(q), AT);
    CountAppend("PII_", Dec(q), DIGITS);
    CountNone("PII_", DIGITS);
    CountAtMost(Dec(q), DIGITS);
  }

  lemma MulTen(v: int, w: int)
    ensures v * (10 * w) == 10 * (v * w)
  {
  }

  lemma LastDigit(s: string)
    requires s != "" && s[|s| - 1] in DIGITS
    ensures Val(s) >= 10 * Val(s[..|s| - 1])
  {
  }

  lemma {:induction false} ValAtLeast(s: string, k: nat)
    requires k <= |s| && forall i :: 0 <= i < |s| ==> s[i] in DIGITS
    ensures Val(s) >= Val(s[..k]) * Pow10(|s| - k)
    decreases |s|
  {
    if k == |s| {
      assert s[..k] == s;
    } else {
      var t := s[..|s| - 1];
      ValAtLeast(t, k);
      assert t[..k] == s[..k];
      LastDigit(s);
      MulTen(Val(s[..k]), Pow10(|t| - k));
    }
  }

  lemma OneDigit(a: char)
    ensures Val([a]) == a as int - '0' as int
  {
    assert [a][..0] == "";
  }

  lemma TwoDigits(a: char, b: char)
    ensures Val([a, b]) == 10 * (a as int - '0' as int) + (b as int - '0' as int)
  {
    assert [a, b][..1] == [a];
    OneDigit(a);
  }

  lemma CardValue(m: string)
    requires CardLike(m) && |m| == 8
    ensures Val(m) >= FIRST_CARD
  {
    ValAtLeast(m, 2);
    TwoDigits(m[0], m[1]);
    assert m[..2] == [m[0], m[1]];
    assert Pow10(3) == 1000 && Pow10(6) == 1000 * Pow10(3);
  }

  /** Eight digits in a row can only be the whole number. */
  lemma CardInside(q: nat, m: string, i: int)
    requires q < FIRST_CARD && CardLike(m) && Occurs(m, Interior(q), i)
    ensures m == Dec(q) && |m| == 8
  {
    InteriorCounts(q);
    var x := Interior(q);
    forall y | i <= y < i + |m| ensures x[y] in DIGITS { assert x[y] == x[i..i + |m|][y - i]; }
    assert x[0] !in DIGITS && x[1] !in DIGITS && x[2] !in DIGITS && x[3] !in DIGITS;
    assert i >= 4;
    assert x[i..i + |m|] == Dec(q);
  }

  lemma PiiIsNotInside(q: nat, m: string)
    requires q < FIRST_CARD && PiiLike(m)
    ensures !Contains(Interior(q), m)
  {
    InteriorCounts(q);
    forall i ensures !Occurs(m, Interior(q), i) {
      if Occurs(m, Interior(q), i) {
        PartCounts(Interior(q), m, i, AT);
        PartCounts(Interior(q), m, i, DIGITS);
        if CardLike(m) {
          CardInside(q, m, i);
          CardValue(m);
          ValOfDec(q);
        }
      }
    }
  }

  /** The round trip for every prompt without the marker and matches of the six patterns, as long as no
      placeholder has the number of a card. */
  lemma PiiLikeRoundTrip(prompt: string, ms: seq<string>)
    requires NoMarker(prompt) && |ms| <= FIRST_CARD + 1 && forall i :: 0 <= i < |ms| ==> PiiLike(ms[i])
    ensures RoundTrips(prompt, ms, TAGS)
  {
    forall i | 0 <= i < |ms| ensures BracketFree(ms[i]) { CountNone(ms[i], BRACKETS); }
    forall k, q | 0 <= q < k < |ms| ensures !Contains(Interior(q), ms[k]) { PiiIsNotInside(q, ms[k]); }
    PiiRoundTrip(prompt, ms);
  }

  /** A search that finds nothing but matches of the pattern. */
  ghost predicate FindsOnly(find: string -> seq<string>, re: Re) {
    forall text, i :: 0 <= i < |find(text)| ==> Matches(re, find(text)[i])
  }

  lemma {:induction false} AllMatchesArePii(prompt: string, finds: seq<string -> seq<string>>)
    requires |finds| <= 6 && forall p :: 0 <= p < |finds| ==> FindsOnly(finds[p], PiiPatterns()[p])
    ensures forall i :: 0 <= i < |MatchesOf(prompt, finds)| ==> PiiLike(MatchesOf(prompt, finds)[i])
    decreases |finds|
  {
    if finds != [] {
      var n := |finds| - 1;
      AllMatchesArePii(prompt, finds[..n]);
      var before := MatchesOf(prompt, finds[..n]);
      var text := Sanitized(prompt, before, TAGS);
      assert FindsOnly(finds[n], PiiPatterns()[n]);
      forall i | 0 <= i < |finds[n](text)| ensures PiiLike(finds[n](text)[i]) {
        MatchesArePii(n, finds[n](text)[i]);
      }
    }
  }

  /** What the SDK promises: sanitizing with the six patterns and restoring gives the prompt back. */
  lemma SixPatternsRoundTrip(prompt: string, finds: seq<string -> seq<string>>)
    requires NoMarker(prompt) && |finds| == 6 && forall p :: 0 <= p < 6 ==> FindsOnly(finds[p], PiiPatterns()[p])
    requires |MatchesOf(prompt, finds)| <= FIRST_CARD + 1
    ensures RoundTrips(prompt, MatchesOf(prompt, finds), TAGS)
  {
    AllMatchesArePii(prompt, finds);
    PiiLikeRoundTrip(prompt, MatchesOf(prompt, finds));
  }

  // ---------- Beyond ----------

  const MAIL := "a@b.cc"

  /** n addresses, a blank after each. */
  function Mails(n: nat): string { if n == 0 then "" else Mails(n - 1) + MAIL + " " }

  /** n placeholders, a blank after each. */
  function Tagged(n: nat): seq<Tok> { if n == 0 then [] else Tagged(n - 1) + [P(n - 1), C(' ')] }

  function Copies(n: nat): seq<string> { seq(n, _ => MAIL) }

  lemma TaggedStep(n: nat)
    ensures Render(Tagged(n + 1), TAGS) == Render(Tagged(n), TAGS) + Tag(n) + " "
  {
    var last := [P(n), C(' ')];
    RenderAppend(Tagged(n), last, TAGS);
    assert last == [P(n)] + [C(' ')];
    RenderAppend([P(n)], [C(' ')], TAGS);
    OneTok(P(n), [], TAGS);
    OneTok(C(' '), [], TAGS);
  }

  predicate Lacks(s: string, c: char) { forall i :: 0 <= i < |s| ==> s[i] != c }

  lemma TagLacks(n: nat)
    ensures Lacks(Tag(n), 'a')
  {
  }

  lemma {:induction false} TaggedLacks(n: nat)
    ensures Lacks(Render(Tagged(n), TAGS), 'a')
  {
    if n > 0 {
      TaggedLacks(n - 1);
      TaggedStep(n - 1);
      TagLacks(n - 1);
    }
  }

  /** Mails from the front. */
  lemma {:induction false} MailsFront(n: nat)
    requires n > 0
    ensures Mails(n) == MAIL + " " + Mails(n - 1)
  {
    if n > 1 { MailsFront(n - 1); }
  }

  lemma OccursHead(m: string, s: string, i: nat)
    requires m != "" && Occurs(m, s, i)
    ensures s[i] == m[0]
  {
    assert s[i] == s[i..i + |m|][0];
  }

  /** Replacing a text behind characters that cannot start it. */
  lemma ReplaceBehind(x: string, m: string, rest: string, t: string)
    requires m != "" && forall i :: 0 <= i < |x| ==> x[i] != m[0]
    ensures ReplaceOnce(x + m + rest, m, t) == x + t + rest
  {
    var s := x + m + rest;
    IndexIsFirst(s, m);
    assert s[|x|..|x| + |m|] == m;
    assert Occurs(m, s, |x|);
    forall i | 0 <= i < |x| ensures !Occurs(m, s, i) {
      if Occurs(m, s, i) { OccursHead(m, s, i); }
    }
    Cut(x, m, rest);
  }

  /** One address more is replaced. */
  lemma MailStep(x: string, t: string, rest: string)
    requires Lacks(x, 'a')
    ensures ReplaceOnce(x + (MAIL + " " + rest), MAIL, t) == x + t + " " + rest
  {
    assert x + (MAIL + " " + rest) == x + MAIL + (" " + rest);
    ReplaceBehind(x, MAIL, " " + rest, t);
    assert x + t + (" " + rest) == x + t + " " + rest;
  }

  lemma {:induction false} SanitizedMails(n: nat, k: nat, d: string)
    requires k <= n
    ensures Sanitized(Mails(n) + d, Copies(k), TAGS) == Render(Tagged(k), TAGS) + (Mails(n - k) + d)
    decreases k
  {
    if k == 0 {
      assert Copies(0) == [];
    } else {
      SanitizedMails(n, k - 1, d);
      MailsLeft(n - k + 1, d);
      NextMail(k - 1, Mails(n - k) + d);
      CopiesSnoc(k);
      SanitizedSnoc(Mails(n) + d, Copies(k - 1), MAIL, TAGS);
    }
  }

  lemma NextMail(k: nat, rest: string)
    ensures ReplaceOnce(Render(Tagged(k), TAGS) + (MAIL + " " + rest), MAIL, Tag(k)) ==
            Render(Tagged(k + 1), TAGS) + rest
  {
    TaggedLacks(k);
    TaggedStep(k);
    MailStep(Render(Tagged(k), TAGS), Tag(k), rest);
  }

  lemma CopiesSnoc(k: nat)
    requires k > 0
    ensures Copies(k) == Copies(k - 1) + [MAIL] && |Copies(k - 1)| == k - 1
  {
  }

  lemma MailsLeft(n: nat, d: string)
    requires n > 0
    ensures Mails(n) + d == MAIL + " " + (Mails(n - 1) + d)
  {
    MailsFront(n);
  }

  lemma {:induction false} TaggedTokens(n: nat)
    ensures LeftFrom(Tagged(n), 0, n) && forall j :: 0 <= j < |Tagged(n)| ==> Tagged(n)[j].P? || Tagged(n)[j] == C(' ')
  {
    if n > 0 { TaggedTokens(n - 1); }
  }

  lemma RenderedUpTo(a: seq<Tok>, b: seq<Tok>, j: nat)
    requires |a| <= j <= |a + b|
    ensures |Render((a + b)[..j], TAGS)| >= |Render(a, TAGS)|
  {
    assert (a + b)[..j] == a + b[..j - |a|];
    RenderAppend(a, b[..j - |a|], TAGS);
  }

  lemma PartOccurs(x: string, d: string, y: string)
    ensures Occurs(d, x + d + y, |x|)
  {
    assert (x + d + y)[|x|..|x| + |d|] == d;
  }

  lemma {:induction false} TaggedGrows(k: nat, n: nat)
    requires k <= n
    ensures Tagged(k) <= Tagged(n)
    decreases n
  {
    if k < n { TaggedGrows(k, n - 1); }
  }

  lemma RenderPrefix(a: seq<Tok>, b: seq<Tok>)
    requires a <= b
    ensures Render(a, TAGS) <= Render(b, TAGS)
  {
    assert b == a + b[|a|..];
    RenderAppend(a, b[|a|..], TAGS);
  }

  /** Text that goes on with a placeholder has its number there. */
  lemma InsideTag(x: string, d: string, all: string)
    requires x + ("[" + ("PII_" + d) + "]") + " " <= all
    ensures Occurs(d, all + d, |x| + 5) && |x| + 5 < |all|
  {
    var y, rest := x + "[PII_", all[|x| + 5 + |d|..] + d;
    assert all[..|x| + 5 + |d|] == y + d;
    assert all + d == y + d + rest;
    PartOccurs(y, d, rest);
  }

  /** The number of a placeholder is found at the latest inside it. */
  lemma FoundByThen(q: nat, n: nat)
    requires q < n
    ensures var s := Render(Tagged(n), TAGS) + Dec(q);
            0 <= Index(s, Dec(q)) < |Render(Tagged(n), TAGS)|
  {
    var x, d, all := Render(Tagged(q), TAGS), Dec(q), Render(Tagged(n), TAGS);
    TaggedStep(q);
    TaggedGrows(q + 1, n);
    RenderPrefix(Tagged(q + 1), Tagged(n));
    InsideTag(x, d, all);
    IndexIsFirst(all + d, d);
  }

  /** Digits on characters are behind the placeholders. */
  lemma DigitsAreBehind(q: nat, n: nat, j: nat, i: int)
    requires OnChars(Tagged(n) + Chars(Dec(q)), j, i, Dec(q), TAGS)
    ensures i >= |Render(Tagged(n), TAGS)|
  {
    var a, d := Tagged(n), Dec(q);
    var ts := a + Chars(d);
    TaggedTokens(n);
    assert ts[j] == ts[j..j + |d|][0] == C(d[0]);
    RenderedUpTo(a, Chars(d), j);
  }

  lemma TextOf(q: nat, n: nat)
    ensures Render(Tagged(n) + Chars(Dec(q)), TAGS) == Render(Tagged(n), TAGS) + Dec(q)
  {
    RenderAppend(Tagged(n), Chars(Dec(q)), TAGS);
    RenderChars(Dec(q), TAGS);
  }

  lemma NumberToken(q: nat, n: nat, i: nat) returns (j: nat)
    requires Occurs(Dec(q), Render(Tagged(n) + Chars(Dec(q)), TAGS), i) && i < |Render(Tagged(n), TAGS)|
    ensures WithinTag(Tagged(n) + Chars(Dec(q)), j, i, |Dec(q)|, TAGS)
  {
    TagsAreSound();
    j := Locate(Tagged(n) + Chars(Dec(q)), Dec(q), i, TAGS);
    if OnChars(Tagged(n) + Chars(Dec(q)), j, i, Dec(q), TAGS) { DigitsAreBehind(q, n, j, i); }
  }

  /** So it is found inside a placeholder. */
  lemma NumberIsInside(q: nat, n: nat)
    requires q < n
    ensures HitsInside(Render(Tagged(n), TAGS) + Dec(q), Dec(q), n, TAGS)
  {
    var ts, s := Tagged(n) + Chars(Dec(q)), Render(Tagged(n), TAGS) + Dec(q);
    TextOf(q, n);
    FoundByThen(q, n);
    IndexIsFirst(s, Dec(q));
    var j := NumberToken(q, n, Index(s, Dec(q)));
    TaggedTokens(n);
    TagOfToken(ts, j, TAGS);
  }

  lemma {:induction false} MailsLack(n: nat, c: char)
    requires c == '[' || c == ']'
    ensures Lacks(Mails(n), c)
  {
    if n > 0 { MailsLack(n - 1, c); }
  }

  lemma LacksMarker(s: string)
    requires Lacks(s, '[')
    ensures NoMarker(s)
  {
    forall i ensures !Occurs(MARKER, s, i) {
      if Occurs(MARKER, s, i) { OccursHead(MARKER, s, i); }
    }
  }

  lemma MailsAreFair(q: nat, n: nat)
    ensures NoMarker(Mails(n) + Dec(q)) && AllBracketFree(Copies(n) + [Dec(q)])
  {
    MailsLack(n, '[');
    LacksMarker(Mails(n) + Dec(q));
    assert BracketFree(MAIL) && BracketFree(Dec(q));
  }

  /** A prompt with more than q addresses and then the number q is not given back when the number is a match. */
  lemma NumberBreaksRoundTrip(q: nat, n: nat)
    requires q < n
    ensures !RoundTrips(Mails(n) + Dec(q), Copies(n) + [Dec(q)], TAGS)
  {
    var prompt, ms, d := Mails(n) + Dec(q), Copies(n), Dec(q);
    TagsAreSound();
    MailsAreFair(q, n);
    SanitizedMails(n, n, d);
    assert Mails(0) + d == d && |ms| == n;
    NumberIsInside(q, n);
    OneMatchMore(prompt, ms, d, TAGS);
    RoundTripExact(prompt, ms + [d], TAGS);
  }

  lemma {:induction false} ManyMatch(cs: set<char>, s: string, n: nat, open: bool)
    requires (forall i :: 0 <= i < |s| ==> s[i] in cs) && (if open then |s| >= n else |s| == n)
    ensures Matches(Many(One(cs), n, open), s)
    decreases |s|
  {
    if s != "" {
      ManyMatch(cs, s[1..], if n > 0 then n - 1 else 0, open);
      assert Matches(One(cs), s[..1]);
    }
  }

  lemma CatMatches(a: Re, b: Re, x: string, y: string)
    requires Matches(a, x) && Matches(b, y)
    ensures Matches(Cat(a, b), x + y)
  {
    assert (x + y)[..|x|] == x && (x + y)[|x|..] == y;
  }

  lemma OneThen(cs: set<char>, c: char, re: Re, s: string)
    requires c in cs && Matches(re, s)
    ensures Matches(Cat(One(cs), re), [c] + s)
  {
    CatMatches(One(cs), re, [c], s);
  }

  lemma ThreeMatch()
    ensures Matches(Cat(One({'4', '7'}), Digits(2)), "400")
  {
    ManyMatch(DIGITS, "00", 2, false);
    OneThen({'4', '7'}, '4', Digits(2), "00");
    assert ['4'] + "00" == "400";
  }

  lemma AmexMatches()
    ensures Matches(Amex(), "3400")
  {
    ThreeMatch();
    OneThen({'3'}, '3', Cat(One({'4', '7'}), Digits(2)), "400");
    assert ['3'] + "400" == "3400";
  }

  lemma AltMatches(a: Re, b: Re, s: string)
    requires Matches(a, s) || Matches(b, s)
    ensures Matches(Alt(a, b), s)
  {
  }

  lemma IssuerMatches()
    ensures Matches(Issuer(), "3400")
  {
    AmexMatches();
    AltMatches(Amex(), Discover(), "3400");
    AltMatches(Mastercard(), Alt(Amex(), Discover()), "3400");
    AltMatches(Visa(), Alt(Mastercard(), Alt(Amex(), Discover())), "3400");
  }

  /** Placeholder 34000000 has the number of a card. */
  lemma NumberCanBeCard()
    ensures Matches(Card(), Dec(FIRST_CARD))
  {
    EightDigits();
    CardMatches();
  }

  lemma CardMatches()
    ensures Matches(Card(), "34000000")
  {
    IssuerMatches();
    ManyMatch(DIGITS, "0000", 4, true);
    CatMatches(Issuer(), Many(One(DIGITS), 4, true), "3400", "0000");
    assert "3400" + "0000" == "34000000";
  }

  lemma TimesTen(q: nat)
    requires q > 0
    ensures Dec(10 * q) == Dec(q) + "0"
  {
  }

  lemma EightDigits()
    ensures Dec(FIRST_CARD) == "34000000"
  {
    assert Dec(34) == "34";
    TimesTen(34);
    TimesTen(340);
    TimesTen(3400);
    TimesTen(34000);
    TimesTen(340000);
    TimesTen(3400000);
  }

  lemma DomainMatches()
    ensures Matches(Cat(Domain(), TopLevel()), "b.cc")
  {
    ManyMatch(LETTERS + DIGITS + {'.', '-'}, "b", 1, true);
    ManyMatch(LETTERS, "cc", 2, true);
    OneThen({'.'}, '.', Many(One(LETTERS), 2, true), "cc");
    CatMatches(Domain(), TopLevel(), "b", ['.'] + "cc");
    assert "b" + (['.'] + "cc") == "b.cc";
  }

  lemma AtMatches()
    ensures Matches(Cat(One(AT), Cat(Domain(), TopLevel())), "@b.cc")
  {
    DomainMatches();
    OneThen(AT, '@', Cat(Domain(), TopLevel()), "b.cc");
    assert ['@'] + "b.cc" == "@b.cc";
  }

  lemma MailMatches()
    ensures Matches(Email(), MAIL)
  {
    AtMatches();
    ManyMatch(LETTERS + DIGITS + {'.', '_', '%', '+', '-'}, "a", 1, true);
    CatMatches(Local(), Cat(One(AT), Cat(Domain(), TopLevel())), "a", "@b.cc");
    assert "a" + "@b.cc" == MAIL;
  }

  // ---------- The threshold ----------

  /** Every match is one of some pattern. */
  ghost predicate AllPii(ms: seq<string>) {
    forall i :: 0 <= i < |ms| ==> IsPii(ms[i])
  }

  ghost predicate IsPii(m: string) { exists p :: 0 <= p < 6 && Matches(PiiPatterns()[p], m) }

  /** With so many matches, every prompt is given back. */
  ghost predicate AlwaysRestored(count: nat) {
    forall prompt, ms :: NoMarker(prompt) && AllPii(ms) && |ms| == count ==> RoundTrips(prompt, ms, TAGS)
  }

  lemma MatchIsPii(p: nat, re: Re, m: string)
    requires p < 6 && re == PiiPatterns()[p] && Matches(re, m)
    ensures IsPii(m)
  {
  }

  lemma MailIsPii()
    ensures IsPii(MAIL)
  {
    MailMatches();
    MatchIsPii(0, Email(), MAIL);
  }

  lemma CardIsPii()
    ensures IsPii(Dec(FIRST_CARD))
  {
    NumberCanBeCard();
    MatchIsPii(2, Card(), Dec(FIRST_CARD));
  }

  lemma PiiAndOneMore(ms: seq<string>, m: string, d: string)
    requires IsPii(m) && IsPii(d) && forall i :: 0 <= i < |ms| ==> ms[i] == m
    ensures AllPii(ms + [d])
  {
  }

  lemma CopiesArePii(n: nat)
    ensures AllPii(Copies(n) + [Dec(FIRST_CARD)])
  {
    MailIsPii();
    CardIsPii();
    PiiAndOneMore(Copies(n), MAIL, Dec(FIRST_CARD));
  }

  lemma AllPiiRoundTrip(prompt: string, ms: seq<string>)
    requires NoMarker(prompt) && AllPii(ms) && |ms| <= FIRST_CARD + 1
    ensures RoundTrips(prompt, ms, TAGS)
  {
    forall i | 0 <= i < |ms| ensures PiiLike(ms[i]) {
      assert IsPii(ms[i]);
      var p :| 0 <= p < 6 && Matches(PiiPatterns()[p], ms[i]);
      MatchesArePii(p, ms[i]);
    }
    PiiLikeRoundTrip(prompt, ms);
  }

  /** The bound is exact: every prompt is given back for so many matches if and only if all
      placeholders but the last come before the first card number. */
  lemma ThresholdExact(count: nat)
    ensures AlwaysRestored(count) <==> count <= FIRST_CARD + 1
  {
    if count <= FIRST_CARD + 1 {
      forall prompt, ms | NoMarker(prompt) && AllPii(ms) && |ms| == count ensures RoundTrips(prompt, ms, TAGS) {
        AllPiiRoundTrip(prompt, ms);
      }
    } else {
      var n: nat := count - 1;
      CopiesArePii(n);
      MailsAreFair(FIRST_CARD, n);
      NumberBreaksRoundTrip(FIRST_CARD, n);
      assert |Copies(n) + [Dec(FIRST_CARD)]| == count;
    }
  }
}
