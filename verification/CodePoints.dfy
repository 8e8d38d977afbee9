/** When the decoded text of a longer prefix extends that of a shorter one. */
module CodePoints {
  import opened Records
  import opened JsonField
  import Emitter

  predicate HighEscape(t: Token) {
    ValidToken(t) && t.Unicode? && HighSurrogate(HexValue(t.digits))
  }

  predicate LowEscape(t: Token) {
    ValidToken(t) && t.Unicode? && LowSurrogate(HexValue(t.digits))
  }

  function PointOf(t: Token): (p: nat)
    requires ValidToken(t)
  {
    match t
    case Plain(c) => c as nat
    case Short(c) => ShortEscape(c).value
    case Unicode(digits) => HexValue(digits)
  }

  /** The code points of a body: a high and a low half that stand together are one. */
  function Points(ts: seq<Token>): (text: Text)
    requires ValidTokens(ts)
  {
    if ts == [] then []
    else if |ts| >= 2 && HighEscape(ts[0]) && LowEscape(ts[1]) then
      [Combine(HexValue(ts[0].digits), HexValue(ts[1].digits))] + Points(ts[2..])
    else [PointOf(ts[0])] + Points(ts[1..])
  }

  // ---------------------------------------------------------------- the decoder gives them

  lemma LoadsFirst(t: Token, tail: string)
    requires ValidToken(t) && !(HighEscape(t) && StartsUnicode(tail))
    ensures Loads(Spell(t) + tail) == Prepend([PointOf(t)], Loads(tail))
  {
    match t
    case Plain(c) => LoadsPlain(c, tail);
    case Short(c) => LoadsShort(c, tail);
    case Unicode(digits) => LoadsAlone(digits, tail);
  }

  lemma LoadsTwo(t: Token, u: Token, tail: string)
    requires HighEscape(t) && ValidToken(u) && u.Unicode?
    ensures Loads(Spell(t) + (Spell(u) + tail)) ==
            if LowEscape(u) then Prepend([Combine(HexValue(t.digits), HexValue(u.digits))], Loads(tail))
            else Prepend([PointOf(t)], Loads(Spell(u) + tail))
  {
    LoadsPair(t.digits, u.digits, tail);
  }

  lemma {:induction false} LoadsPoints(ts: seq<Token>)
    requires ValidTokens(ts)
    ensures Loads(SpellAll(ts)) == Some(Points(ts))
    decreases |ts|
  {
    if ts != [] {
      var tail := SpellAll(ts[1..]);
      LoadsPoints(ts[1..]);
      if HighEscape(ts[0]) && StartsUnicode(tail) {
        StartsWithUnicodeToken(ts[1..]);
        LoadsPoints(ts[2..]);
        assert ts[1..][1..] == ts[2..] && ts[1..][0] == ts[1];
        LoadsTwo(ts[0], ts[1], SpellAll(ts[2..]));
      } else {
        LoadsFirst(ts[0], tail);
        NoPairWithout(ts);
      }
    }
  }

  lemma NoPairWithout(ts: seq<Token>)
    requires ValidTokens(ts) && ts != [] && !(HighEscape(ts[0]) && StartsUnicode(SpellAll(ts[1..])))
    ensures Points(ts) == [PointOf(ts[0])] + Points(ts[1..])
  {
    if |ts| >= 2 && LowEscape(ts[1]) {
      assert SpellAll(ts[1..]) == Escape(ts[1].digits) + SpellAll(ts[1..][1..]);
    }
  }

  // ---------------------------------------------------------------- cutting between tokens

  /** The cut parts the two halves of a pair. */
  predicate PartsPair(ts: seq<Token>, a: nat) {
    0 < a < |ts| && HighEscape(ts[a - 1]) && LowEscape(ts[a])
  }

  lemma PointsPair(ts: seq<Token>)
    requires ValidTokens(ts) && |ts| >= 2 && HighEscape(ts[0]) && LowEscape(ts[1])
    ensures Points(ts) == [Combine(HexValue(ts[0].digits), HexValue(ts[1].digits))] + Points(ts[2..])
  {}

  lemma PointsOne(ts: seq<Token>)
    requires ValidTokens(ts) && ts != [] && !PartsPair(ts, 1)
    ensures Points(ts) == [PointOf(ts[0])] + Points(ts[1..])
  {}

  lemma Regroup(a: Text, b: Text, c: Text)
    ensures a + (b + c) == (a + b) + c
  {}

  lemma SplitAfterPair(ts: seq<Token>, a: nat, before: Text, after: Text)
    requires ValidTokens(ts) && 2 <= a <= |ts| && PartsPair(ts, 1)
    requires before == Points(ts[2..a]) && after == Points(ts[a..]) && Points(ts[2..]) == before + after
    ensures Points(ts) == Points(ts[..a]) + after
  {
    var p := [Combine(HexValue(ts[0].digits), HexValue(ts[1].digits))];
    assert ts[..a][2..] == ts[2..a];
    PointsPair(ts);
    PointsPair(ts[..a]);
    Regroup(p, before, after);
  }

  lemma SplitAfterOne(ts: seq<Token>, a: nat, before: Text, after: Text)
    requires ValidTokens(ts) && 1 <= a <= |ts| && !PartsPair(ts, 1)
    requires before == Points(ts[1..a]) && after == Points(ts[a..]) && Points(ts[1..]) == before + after
    ensures Points(ts) == Points(ts[..a]) + after
  {
    assert ts[..a][1..] == ts[1..a];
    PointsOne(ts);
    PointsOne(ts[..a]);
    Regroup([PointOf(ts[0])], before, after);
  }

  lemma {:induction false} PointsSplit(ts: seq<Token>, a: nat)
    requires ValidTokens(ts) && a <= |ts| && !PartsPair(ts, a)
    ensures Points(ts) == Points(ts[..a]) + Points(ts[a..])
    decreases a
  {
    if a == 0 {
      assert ts[..0] == [] && ts[0..] == ts;
    } else if PartsPair(ts, 1) {
      assert ts[2..][..a - 2] == ts[2..a] && ts[2..][a - 2..] == ts[a..];
      PointsSplit(ts[2..], a - 2);
      SplitAfterPair(ts, a, Points(ts[2..a]), Points(ts[a..]));
    } else {
      assert ts[1..][..a - 1] == ts[1..a] && ts[1..][a - 1..] == ts[a..];
      PointsSplit(ts[1..], a - 1);
      SplitAfterOne(ts, a, Points(ts[1..a]), Points(ts[a..]));
    }
  }

  /** A cut through a pair leaves the first half alone at the end. */
  lemma PointsOfHalf(ts: seq<Token>, a: nat)
    requires ValidTokens(ts) && PartsPair(ts, a)
    ensures Points(ts[..a]) == Points(ts[..a - 1]) + [HexValue(ts[a - 1].digits)]
    ensures Points(ts) ==
            Points(ts[..a - 1]) + ([Combine(HexValue(ts[a - 1].digits), HexValue(ts[a].digits))] + Points(ts[a + 1..]))
  {
    PointsSplit(ts, a - 1);
    PointsSplit(ts[..a], a - 1);
    assert ts[..a][..a - 1] == ts[..a - 1] && ts[..a][a - 1..] == [ts[a - 1]];
    PointsOne([ts[a - 1]]);
    assert [ts[a - 1]][1..] == [];
    assert ts[a - 1..][2..] == ts[a + 1..];
    PointsPair(ts[a - 1..]);
  }

  lemma HalfIsNoPrefix(before: Text, v: nat, p: nat, after: Text)
    requires v != p
    ensures !(before + [v] <= before + ([p] + after))
  {
    assert (before + [v])[|before|] == v && (before + ([p] + after))[|before|] == p;
  }

  lemma PrefixOfWhole(before: Text, after: Text)
    ensures before <= before + after
  {}

  /** Counted in code points, the text of more tokens extends that of fewer exactly when the cut
      between them does not part the two halves of a surrogate pair. */
  lemma PointsExtend(ts: seq<Token>, a: nat, b: nat)
    requires ValidTokens(ts) && a <= b <= |ts|
    ensures Points(ts[..a]) <= Points(ts[..b]) <==> !(a < b && PartsPair(ts, a))
  {
    var all := ts[..b];
    assert all[..a] == ts[..a];
    if PartsPair(all, a) {
      PointsOfHalf(all, a);
      assert all[..a - 1] == ts[..a - 1];
      HalfIsNoPrefix(Points(all[..a - 1]), HexValue(all[a - 1].digits),
                     Combine(HexValue(all[a - 1].digits), HexValue(all[a].digits)), Points(all[a + 1..]));
    } else {
      PointsSplit(all, a);
      PrefixOfWhole(Points(ts[..a]), Points(all[a..]));
    }
  }

  // ---------------------------------------------------------------- the field

  /** How many tokens have arrived whole among the first n characters after the opening quote. */
  function Arrived(ts: seq<Token>, n: nat): (k: nat)
    ensures k <= |ts|
  {
    WholeTokens(ts, Min(n, |SpellAll(ts)|))
  }

  lemma ArrivedGrows(ts: seq<Token>, m: nat, n: nat)
    requires m <= n
    ensures Arrived(ts, m) <= Arrived(ts, n)
  {
    WholeTokensGrow(ts, Min(m, |SpellAll(ts)|), Min(n, |SpellAll(ts)|));
  }

  /** The text shown for a prefix of the arguments is the code points of the tokens arrived. */
  lemma FieldIsPoints(head: string, ts: seq<Token>, rest: string, n: nat)
    requires FieldEnd(head, 0) == Some(|head|) && ValidTokens(ts) && n <= |Quoted(ts, rest)|
    ensures Field(head + Quoted(ts, rest)[..n]) == Points(ts[..Arrived(ts, n)])
  {
    PrefixDecoding(head, ts, rest, n);
    LoadsPoints(ts[..Arrived(ts, n)]);
  }

  /** More input extends the text shown, counted in code points, exactly when the shorter input does
      not end between the two halves of a pair of which the longer has the second. */
  lemma FieldExtends(head: string, ts: seq<Token>, rest: string, m: nat, n: nat)
    requires FieldEnd(head, 0) == Some(|head|) && ValidTokens(ts) && m <= n <= |Quoted(ts, rest)|
    ensures Field(head + Quoted(ts, rest)[..m]) <= Field(head + Quoted(ts, rest)[..n])
            <==> !(Arrived(ts, m) < Arrived(ts, n) && PartsPair(ts, Arrived(ts, m)))
  {
    FieldIsPoints(head, ts, rest, m);
    FieldIsPoints(head, ts, rest, n);
    ArrivedGrows(ts, m, n);
    PointsExtend(ts, Arrived(ts, m), Arrived(ts, n));
  }

  const SPLIT_HEAD := "\"answer\":\""

  lemma SplitHeadIsField()
    ensures FieldEnd(SPLIT_HEAD, 0) == Some(|SPLIT_HEAD|)
  {
    assert SPLIT_HEAD == ['"', 'a', 'n', 's', 'w', 'e', 'r', '"', ':', '"'];
    assert SPLIT_HEAD[0..8] == FIELD;
    assert SkipSpace(SPLIT_HEAD, 8) == 8 && SkipSpace(SPLIT_HEAD, 9) == 9;
    assert MatchEnd(SPLIT_HEAD, 0) == Some(10);
  }

  lemma SplitDigits()
    ensures Hex4("d83d") && HexValue("d83d") == 0xD83D && Hex4("de00") && HexValue("de00") == 0xDE00
  {
    var high, low := "d83d", "de00";
    assert high == ['d', '8', '3', 'd'] && low == ['d', 'e', '0', '0'];
    assert DigitValue('d') == 13 && DigitValue('8') == 8 && DigitValue('3') == 3 && DigitValue('e') == 14
           && DigitValue('0') == 0;
  }

  /** An emoji sent as an escaped pair and cut in its middle: the text shown for the first half is not
      extended by the text shown for both. */
  lemma SplitPairShrinks()
    ensures var half := SPLIT_HEAD + Escape("d83d");
            var whole := half + Escape("de00");
            Field(half) == [0xD83D] && Field(whole) == [0x1F600] && !(Field(half) <= Field(whole))
  {
    var ts := [Unicode("d83d"), Unicode("de00")];
    SplitDigits();
    SplitHeadIsField();
    assert Combine(0xD83D, 0xDE00) == 0x1F600;
    SplitPairText(ts);
    FieldIsPoints(SPLIT_HEAD, ts, "", 6);
    FieldIsPoints(SPLIT_HEAD, ts, "", 12);
    assert ts[..1] == [ts[0]] && ts[..2] == ts;
    assert ts[..1][1..] == [] && ts[2..] == [];
    PointsOne(ts[..1]);
    PointsPair(ts);
    assert [0xD83D as nat][0] != [0x1F600 as nat][0];
  }

  lemma SplitPairText(ts: seq<Token>)
    requires ts == [Unicode("d83d"), Unicode("de00")] && ValidTokens(ts)
    ensures |SpellAll(ts)| == 12 && Arrived(ts, 6) == 1 && Arrived(ts, 12) == 2
    ensures Quoted(ts, "")[..6] == Escape("d83d") && SPLIT_HEAD + Quoted(ts, "")[..6] == SPLIT_HEAD + Escape("d83d")
    ensures SPLIT_HEAD + Quoted(ts, "")[..12] == SPLIT_HEAD + Escape("d83d") + Escape("de00")
  {
    assert ts[1..] == [ts[1]] && ts[1..][1..] == [];
    assert SpellAll(ts[1..]) == Escape("de00") + "";
    assert SpellAll(ts) == Escape("d83d") + SpellAll(ts[1..]);
    assert |Escape("d83d")| == 6 && |Escape("de00")| == 6;
    AllTokensWhole(ts);
    assert WholeTokens(ts[1..], 0) == 0;
    var q := Quoted(ts, "");
    assert q[..6] == Escape("d83d");
    assert q[..12] == Escape("d83d") + Escape("de00");
  }

  // ---------------------------------------------------------------- what may be revealed

  lemma LastWordStays(s: Text, v: nat)
    requires !Emitter.BreakChar(v)
    ensures Emitter.RevealableWords(s + [v]) == Emitter.RevealableWords(s)
  {
    assert (s + [v])[..|s|] == s;
    Emitter.LastIndexOfIsLast(s, Emitter.SPACE);
    Emitter.LastIndexOfIsLast(s, Emitter.NEWLINE);
    Emitter.LastIndexOfIsLast(s, Emitter.TAB);
    var b := Emitter.Boundary(s);
    assert Emitter.Boundary(s + [v]) == b;
    if 0 <= b < |s| { assert (s + [v])[..b + 1] == s[..b + 1]; }
  }

  lemma PrefixTrans(a: Text, b: Text, c: Text)
    requires a <= b <= c
    ensures a <= c
  {}

  lemma RevealedOfHalf(ts: seq<Token>, a: nat, shown: Text, before: Text)
    requires ValidTokens(ts) && PartsPair(ts, a) && shown == Points(ts[..a]) && before == Points(ts[..a - 1])
    ensures Emitter.RevealableWords(shown) <= before
  {
    PointsOfHalf(ts, a);
    LastWordStays(before, HexValue(ts[a - 1].digits));
    Emitter.RevealableIsLongestBreak(before);
  }

  /** What fewer tokens let be revealed begins the text of more tokens, wherever the cut falls. */
  lemma RevealedBegins(ts: seq<Token>, a: nat, b: nat, shown: Text, later: Text)
    requires ValidTokens(ts) && a <= b <= |ts| && shown == Points(ts[..a]) && later == Points(ts[..b])
    ensures Emitter.RevealableWords(shown) <= later
  {
    Emitter.RevealableIsLongestBreak(shown);
    PointsExtend(ts, a, b);
    if a < b && PartsPair(ts, a) {
      RevealedOfHalf(ts, a, shown, Points(ts[..a - 1]));
      PointsExtend(ts, a - 1, b);
      PrefixTrans(Emitter.RevealableWords(shown), Points(ts[..a - 1]), later);
    } else {
      PrefixTrans(Emitter.RevealableWords(shown), shown, later);
    }
  }
}
