/** Putting a token stream back together (sdk/client.go:180-215). */
module Stream {
  import opened FeeSplit
  import opened Tokens

  datatype StreamToken = StreamToken(index: uint32, text: string, final: bool, sig: seq<char>)

  // ---------- What the loops look for ----------

  /** The highest index marked final, and the signature that came with it last. */
  function FinalOf(received: seq<StreamToken>): Option<(uint32, seq<char>)> {
    if received == [] then None else
      var t, before := received[|received| - 1], FinalOf(received[..|received| - 1]);
      if t.final && (before.None? || t.index >= before.value.0) then Some((t.index, t.sig)) else before
  }

  ghost predicate Has(received: seq<StreamToken>, i: nat) {
    exists k :: 0 <= k < |received| && received[k].index == i
  }

  /** The text that came first for an index. */
  function FirstText(received: seq<StreamToken>, i: nat): Option<string> {
    if received == [] then None
    else if received[0].index == i then Some(received[0].text) else FirstText(received[1..], i)
  }

  lemma {:induction false} FirstTextFound(received: seq<StreamToken>, i: nat)
    ensures FirstText(received, i).Some? <==> Has(received, i)
  {
    if received != [] {
      FirstTextFound(received[1..], i);
      if received[0].index != i && Has(received, i) {
        var k :| 0 <= k < |received| && received[k].index == i;
        assert received[1..][k - 1].index == i;
      }
      if Has(received[1..], i) {
        var k :| 0 <= k < |received[1..]| && received[1..][k].index == i;
        assert received[k + 1].index == i;
      }
    }
  }

  lemma {:induction false} FirstTextSnoc(received: seq<StreamToken>, t: StreamToken, i: nat)
    ensures FirstText(received + [t], i) ==
            if FirstText(received, i).Some? then FirstText(received, i)
            else if t.index == i then Some(t.text) else None
  {
    if received == [] {
      assert received + [t] == [t];
    } else {
      assert (received + [t])[1..] == received[1..] + [t];
      FirstTextSnoc(received[1..], t, i);
    }
  }

  ghost predicate Complete(received: seq<StreamToken>) {
    FinalOf(received).Some? && forall i :: 0 <= i <= FinalOf(received).value.0 ==> FirstText(received, i).Some?
  }

  /** The first text of each index, by index. */
  method IndexTexts(received: seq<StreamToken>) returns (byIndex: map<uint32, string>)
    ensures forall i: uint32 :: FirstText(received, i) == if i in byIndex then Some(byIndex[i]) else None
  {
    byIndex := map[];
    for k := 0 to |received|
      invariant forall i: uint32 :: FirstText(received[..k], i) == if i in byIndex then Some(byIndex[i]) else None
    {
      assert received[..k + 1] == received[..k] + [received[k]];
      forall i: uint32 ensures FirstText(received[..k + 1], i) ==
          if FirstText(received[..k], i).Some? then FirstText(received[..k], i)
          else if received[k].index == i then Some(received[k].text) else None {
        FirstTextSnoc(received[..k], received[k], i);
      }
      if received[k].index !in byIndex { byIndex := byIndex[received[k].index := received[k].text]; }
    }
    assert received[..|received|] == received;
  }

  method ReassembleStreamTokens(received: seq<StreamToken>) returns (tokens: seq<string>, sig: seq<char>, ready: bool)
    ensures ready <==> Complete(received)
    ensures ready ==> |tokens| == FinalOf(received).value.0 + 1 && sig == FinalOf(received).value.1
    ensures ready ==> forall i :: 0 <= i < |tokens| ==> FirstText(received, i) == Some(tokens[i])
    ensures !ready ==> tokens == [] && sig == []
  {
    var final: Option<(uint32, seq<char>)> := None;
    for k := 0 to |received|
      invariant final == FinalOf(received[..k])
    {
      assert received[..k + 1][..k] == received[..k];
      var t := received[k];
      if t.final && (final.None? || t.index >= final.value.0) { final := Some((t.index, t.sig)); }
    }
    assert received[..|received|] == received;
    if final.None? { return [], [], false; }
    var finalIdx: uint32 := final.value.0;
    var byIndex := IndexTexts(received);
    tokens := [];
    for i := 0 to finalIdx + 1
      invariant |tokens| == i
      invariant forall j :: 0 <= j < i ==> FirstText(received, j) == Some(tokens[j])
    {
      var at: uint32 := i;
      if at !in byIndex { return [], [], false; }
      tokens := tokens + [byIndex[at]];
    }
    return tokens, final.value.1, true;
  }

  // ---------- Order does not matter ----------

  /** The sender's stream: token i of the list, the last one final. */
  ghost predicate IsSent(t: StreamToken, texts: seq<string>, sig: seq<char>) {
    && t.index < |texts| && t.text == texts[t.index]
    && (t.final <==> t.index == |texts| - 1) && (t.final ==> t.sig == sig)
  }

  /** Whatever arrives of a stream, in any order and any number of copies. */
  ghost predicate Arrivals(received: seq<StreamToken>, texts: seq<string>, sig: seq<char>) {
    forall k :: 0 <= k < |received| ==> IsSent(received[k], texts, sig)
  }

  lemma {:induction false} FinalArrives(received: seq<StreamToken>, texts: seq<string>, sig: seq<char>)
    requires Arrivals(received, texts, sig)
    ensures FinalOf(received).Some? <==> texts != [] && Has(received, |texts| - 1)
    ensures FinalOf(received).Some? ==> FinalOf(received).value == (|texts| - 1, sig)
  {
    if received != [] {
      var last, before := |received| - 1, received[..|received| - 1];
      FinalArrives(before, texts, sig);
      assert IsSent(received[last], texts, sig);
      if Has(received, |texts| - 1) && !received[last].final {
        var k :| 0 <= k < |received| && received[k].index == |texts| - 1;
        assert before[k].index == |texts| - 1;
      }
      if Has(before, |texts| - 1) {
        var k :| 0 <= k < |before| && before[k].index == |texts| - 1;
        assert received[k].index == |texts| - 1;
      }
    }
  }

  lemma {:induction false} TextsAgree(received: seq<StreamToken>, texts: seq<string>, sig: seq<char>, i: nat)
    requires Arrivals(received, texts, sig) && FirstText(received, i).Some?
    ensures i < |texts| && FirstText(received, i) == Some(texts[i])
  {
    assert IsSent(received[0], texts, sig);
    if received[0].index != i { TextsAgree(received[1..], texts, sig, i); }
  }

  /** A stream is ready exactly when every one of its tokens has arrived, in whatever order, and then
      it is the sender's list with the sender's signature. */
  lemma StreamIsOrderIndependent(received: seq<StreamToken>, texts: seq<string>, sig: seq<char>)
    requires Arrivals(received, texts, sig) && texts != []
    ensures Complete(received) <==> forall i :: 0 <= i < |texts| ==> Has(received, i)
    ensures Complete(received) ==> FinalOf(received) == Some((|texts| - 1, sig))
    ensures Complete(received) ==> forall i :: 0 <= i < |texts| ==> FirstText(received, i) == Some(texts[i])
  {
    FinalArrives(received, texts, sig);
    forall i: nat ensures FirstText(received, i).Some? <==> Has(received, i) { FirstTextFound(received, i); }
    if Complete(received) {
      forall i | 0 <= i < |texts| ensures FirstText(received, i) == Some(texts[i]) {
        TextsAgree(received, texts, sig, i);
      }
    }
  }
}
