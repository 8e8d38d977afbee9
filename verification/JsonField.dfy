/** Decoding the answer string of a JSON object that is still being streamed.

    Decoded text is a sequence of code points, in which the decoder may leave a lone surrogate. The
    module CodePoints says when more input extends it; its UTF-16 code units are always extended. */
module JsonField {
  import opened Records

  // ---------------------------------------------------------------- JSON string bodies

  predicate HexDigit(c: char) {
    '0' <= c <= '9' || 'a' <= c <= 'f' || 'A' <= c <= 'F'
  }

  function DigitValue(c: char): (v: nat)
    requires HexDigit(c)
    ensures v < 16
  {
    if c <= '9' then c as int - '0' as int
    else if c <= 'F' then c as int - 'A' as int + 10
    else c as int - 'a' as int + 10
  }

  predicate Hex4(s: string) {
    |s| == 4 && forall i :: 0 <= i < 4 ==> HexDigit(s[i])
  }

  function HexValue(s: string): (v: nat)
    requires Hex4(s)
    ensures v < 0x10000
  {
    ((DigitValue(s[0]) * 16 + DigitValue(s[1])) * 16 + DigitValue(s[2])) * 16 + DigitValue(s[3])
  }

  /** The value of a two-character escape. */
  function ShortEscape(c: char): (result: Option<nat>) {
    match c
    case '"' => Some(0x22)
    case '\\' => Some(0x5C)
    case '/' => Some(0x2F)
    case 'b' => Some(0x8)
    case 'f' => Some(0xC)
    case 'n' => Some(0xA)
    case 'r' => Some(0xD)
    case 't' => Some(0x9)
    case _ => None
  }

  /** The tokens of a string body, section 7 of RFC 8259. */
  datatype Token = Plain(c: char) | Short(c: char) | Unicode(digits: string)

  predicate ValidToken(t: Token) {
    match t
    case Plain(c) => c as int >= 0x20 && c != '"' && c != '\\'
    case Short(c) => ShortEscape(c).Some?
    case Unicode(digits) => Hex4(digits)
  }

  predicate ValidTokens(ts: seq<Token>) {
    forall i :: 0 <= i < |ts| ==> ValidToken(ts[i])
  }

  function Spell(t: Token): (text: string) {
    match t
    case Plain(c) => [c]
    case Short(c) => ['\\', c]
    case Unicode(digits) => Escape(digits)
  }

  function SpellAll(ts: seq<Token>): (text: string) {
    if ts == [] then "" else Spell(ts[0]) + SpellAll(ts[1..])
  }

  function Utf16One(p: nat): (text: Text) {
    if p < 0x10000 then [p] else [0xD800 + (p - 0x10000) / 0x400, 0xDC00 + (p - 0x10000) % 0x400]
  }

  /** The code units one token stands for. */
  function UnitsOf(t: Token): (text: Text)
    requires ValidToken(t)
  {
    match t
    case Plain(c) => Utf16One(c as int)
    case Short(c) => [ShortEscape(c).value]
    case Unicode(digits) => [HexValue(digits)]
  }

  /** The meaning of a string body: the code units of its tokens, one after the other. */
  function Units(ts: seq<Token>): (text: Text)
    requires ValidTokens(ts)
  {
    if ts == [] then [] else UnitsOf(ts[0]) + Units(ts[1..])
  }

  // ---------------------------------------------------------------- the standard decoder

  predicate HighSurrogate(v: nat) {
    0xD800 <= v <= 0xDBFF
  }

  predicate LowSurrogate(v: nat) {
    0xDC00 <= v <= 0xDFFF
  }

  function Prepend(points: Text, rest: Option<Text>): (text: Option<Text>) {
    if rest.Some? then Some(points + rest.value) else None
  }

  predicate StartsUnicode(s: string) {
    |s| >= 2 && s[0] == '\\' && s[1] == 'u'
  }

  function Combine(v: nat, w: nat): (n: nat)
    requires HighSurrogate(v) && LowSurrogate(w)
  {
    0x10000 + (v - 0xD800) * 0x400 + (w - 0xDC00)
  }

  /** A Unicode escape at the front: its code point and its length. A high surrogate followed by a low
      one becomes a single code point; otherwise it stays alone. None for a malformed escape. */
  function UnicodeStep(s: string): (r: Option<(nat, nat)>)
    ensures r.Some? ==> 6 <= r.value.1 <= |s|
  {
    if |s| < 6 || !Hex4(s[2..6]) then None
    else
      var v := HexValue(s[2..6]);
      if HighSurrogate(v) && StartsUnicode(s[6..]) then
        if |s| < 12 || !Hex4(s[8..12]) then None
        else if LowSurrogate(HexValue(s[8..12])) then Some((Combine(v, HexValue(s[8..12])), 12))
        else Some((v, 6))
      else Some((v, 6))
  }

  /** `json.loads` of the quoted text: None for a decoding error. */
  function Loads(s: string): (text: Option<Text>)
    decreases |s|
  {
    if s == "" then Some([])
    else if s[0] == '\\' then
      if StartsUnicode(s) then
        var step := UnicodeStep(s);
        if step.None? then None else Prepend([step.value.0], Loads(s[step.value.1..]))
      else if |s| >= 2 && ShortEscape(s[1]).Some? then Prepend([ShortEscape(s[1]).value], Loads(s[2..]))
      else None
    else if s[0] == '"' || (s[0] as int) < 0x20 then None
    else Prepend([s[0] as int], Loads(s[1..]))
  }

  function Utf16(points: Text): (text: Text) {
    if points == [] then [] else Utf16One(points[0]) + Utf16(points[1..])
  }

  lemma PairSplits(v: nat, w: nat)
    requires HighSurrogate(v) && LowSurrogate(w)
    ensures Utf16One(Combine(v, w)) == [v, w]
  {}

  function Escape(digits: string): (text: string) {
    ['\\', 'u'] + digits
  }

  lemma StepAlone(digits: string, tail: string)
    requires Hex4(digits) && !(HighSurrogate(HexValue(digits)) && StartsUnicode(tail))
    ensures UnicodeStep(Escape(digits) + tail) == Some((HexValue(digits), 6)) && (Escape(digits) + tail)[6..] == tail
  {
    var s := Escape(digits) + tail;
    assert s[2..6] == digits && s[6..] == tail;
  }

  lemma StepPair(high: string, low: string, tail: string)
    requires Hex4(high) && Hex4(low) && HighSurrogate(HexValue(high))
    ensures var s := Escape(high) + (Escape(low) + tail);
            && s[6..] == Escape(low) + tail && s[12..] == tail
            && UnicodeStep(s) == if LowSurrogate(HexValue(low)) then Some((Combine(HexValue(high), HexValue(low)), 12))
                                 else Some((HexValue(high), 6))
  {
    var s := Escape(high) + (Escape(low) + tail);
    assert s[2..6] == high && s[6..] == Escape(low) + tail && s[8..12] == low && s[12..] == tail;
  }

  lemma StepCut(high: string, tail: string)
    requires Hex4(high) && HighSurrogate(HexValue(high)) && StartsUnicode(tail) && |tail| < 6
    ensures UnicodeStep(Escape(high) + tail).None?
  {
    var s := Escape(high) + tail;
    assert s[2..6] == high && s[6..] == tail;
  }

  lemma Utf16Prepend(p: nat, rest: Text)
    ensures Utf16([p] + rest) == Utf16One(p) + Utf16(rest)
  {
    assert ([p] + rest)[1..] == rest;
  }

  lemma LoadsPlain(c: char, tail: string)
    requires ValidToken(Plain(c))
    ensures Loads([c] + tail) == Prepend([c as int], Loads(tail))
  {
    assert ([c] + tail)[1..] == tail;
  }

  lemma LoadsShort(c: char, tail: string)
    requires ValidToken(Short(c))
    ensures Loads(['\\', c] + tail) == Prepend([ShortEscape(c).value], Loads(tail))
  {
    assert (['\\', c] + tail)[2..] == tail;
  }

  lemma LoadsAlone(digits: string, tail: string)
    requires Hex4(digits) && !(HighSurrogate(HexValue(digits)) && StartsUnicode(tail))
    ensures Loads(Escape(digits) + tail) == Prepend([HexValue(digits)], Loads(tail))
  {
    StepAlone(digits, tail);
  }

  lemma LoadsPair(high: string, low: string, tail: string)
    requires Hex4(high) && Hex4(low) && HighSurrogate(HexValue(high))
    ensures Loads(Escape(high) + (Escape(low) + tail)) ==
            if LowSurrogate(HexValue(low)) then Prepend([Combine(HexValue(high), HexValue(low))], Loads(tail))
            else Prepend([HexValue(high)], Loads(Escape(low) + tail))
  {
    StepPair(high, low, tail);
  }

  lemma LoadsCut(high: string, tail: string)
    requires Hex4(high) && HighSurrogate(HexValue(high)) && StartsUnicode(tail) && |tail| < 6
    ensures Loads(Escape(high) + tail).None?
  {
    StepCut(high, tail);
  }

  /** The decoder reads a whole string body and gives its meaning. */
  lemma {:induction false} LoadsTokens(ts: seq<Token>)
    requires ValidTokens(ts)
    ensures Loads(SpellAll(ts)).Some? && Utf16(Loads(SpellAll(ts)).value) == Units(ts)
    decreases |ts|
  {
    if ts != [] {
      LoadsTokens(ts[1..]);
      if ts[0].Unicode? {
        LoadsUnicodeToken(ts);
      } else {
        LoadsSimpleToken(ts[0], SpellAll(ts[1..]));
      }
    }
  }

  lemma LoadsSimpleToken(t: Token, tail: string)
    requires ValidToken(t) && !t.Unicode? && Loads(tail).Some?
    ensures Loads(Spell(t) + tail).Some? && Utf16(Loads(Spell(t) + tail).value) == UnitsOf(t) + Utf16(Loads(tail).value)
  {
    match t
    case Plain(c) =>
      LoadsPlain(c, tail);
      Utf16Prepend(c as int, Loads(tail).value);
    case Short(c) =>
      LoadsShort(c, tail);
      Utf16Prepend(ShortEscape(c).value, Loads(tail).value);
  }

  lemma LoadsUnicodeToken(ts: seq<Token>)
    requires ValidTokens(ts) && ts != [] && ts[0].Unicode?
    requires Loads(SpellAll(ts[1..])).Some? && Utf16(Loads(SpellAll(ts[1..])).value) == Units(ts[1..])
    ensures Loads(SpellAll(ts)).Some? && Utf16(Loads(SpellAll(ts)).value) == Units(ts)
    decreases |ts|, 0
  {
    var tail := SpellAll(ts[1..]);
    var v := HexValue(ts[0].digits);
    assert SpellAll(ts) == Escape(ts[0].digits) + tail;
    assert Units(ts) == [v] + Units(ts[1..]);
    if HighSurrogate(v) && StartsUnicode(tail) {
      StartsWithUnicodeToken(ts[1..]);
      var rest := ts[1..][1..];
      LoadsPair(ts[0].digits, ts[1].digits, SpellAll(rest));
      PairUnits(ts[1..], v);
    } else {
      LoadsAlone(ts[0].digits, tail);
    }
    if Loads(tail).Some? { Utf16Prepend(v, Loads(tail).value); }
  }

  lemma PairPrepends(v: nat, w: nat, points: Text, rest: Text)
    requires HighSurrogate(v) && LowSurrogate(w) && Utf16(points) == rest
    ensures Utf16([Combine(v, w)] + points) == [v] + ([w] + rest)
  {
    PairSplits(v, w);
    Utf16Prepend(Combine(v, w), points);
    assert [v, w] + rest == [v] + ([w] + rest);
  }

  /** The second half of a surrogate pair, read on its own or as part of the pair. */
  lemma PairUnits(ts: seq<Token>, v: nat)
    requires ValidTokens(ts) && ts != [] && ts[0].Unicode? && HighSurrogate(v)
    ensures var w := HexValue(ts[0].digits);
            && Loads(SpellAll(ts[1..])).Some?
            && (LowSurrogate(w) ==> Utf16([Combine(v, w)] + Loads(SpellAll(ts[1..])).value) == [v] + Units(ts))
    decreases |ts|, 0
  {
    var w := HexValue(ts[0].digits);
    LoadsTokens(ts[1..]);
    assert Units(ts) == [w] + Units(ts[1..]);
    if LowSurrogate(w) { PairPrepends(v, w, Loads(SpellAll(ts[1..])).value, Units(ts[1..])); }
  }

  /** A body that begins with a backslash and a `u` begins with a Unicode token. */
  lemma StartsWithUnicodeToken(ts: seq<Token>)
    requires ValidTokens(ts) && StartsUnicode(SpellAll(ts))
    ensures ts != [] && ts[0].Unicode? && SpellAll(ts) == Escape(ts[0].digits) + SpellAll(ts[1..])
  {
    assert SpellAll(ts) == Spell(ts[0]) + SpellAll(ts[1..]);
  }

  lemma CutAloneFails(t: Token, k: nat)
    requires ValidToken(t) && 1 <= k < |Spell(t)|
    ensures Loads(Spell(t)[..k]).None? && k < 6
  {
    assert Spell(t)[..k][0] == '\\';
    assert k > 1 ==> t.Unicode? && StartsUnicode(Spell(t)[..k]);
  }

  lemma SpellSplits(ts: seq<Token>, cut: string)
    requires ts != []
    ensures SpellAll(ts) + cut == Spell(ts[0]) + (SpellAll(ts[1..]) + cut)
  {}

  /** A token cut short makes the whole text undecodable. */
  lemma {:induction false} CutTokenFails(ts: seq<Token>, t: Token, k: nat)
    requires ValidTokens(ts) && ValidToken(t) && 1 <= k < |Spell(t)|
    ensures Loads(SpellAll(ts) + Spell(t)[..k]).None?
    decreases |ts|
  {
    var cut := Spell(t)[..k];
    CutAloneFails(t, k);
    if ts == [] {
      assert SpellAll(ts) + cut == cut;
    } else {
      var tail := SpellAll(ts[1..]) + cut;
      SpellSplits(ts, cut);
      CutTokenFails(ts[1..], t, k);
      match ts[0] {
        case Plain(c) => LoadsPlain(c, tail);
        case Short(c) => LoadsShort(c, tail);
        case Unicode(digits) =>
          if |ts| > 1 {
            CutTokenFails(ts[2..], t, k);
            assert ts[1..][1..] == ts[2..];
          }
          CutUnicodeFails(digits, ts[1..], cut, tail);
      }
    }
  }

  lemma CutUnicodeFails(digits: string, next: seq<Token>, cut: string, tail: string)
    requires Hex4(digits) && ValidTokens(next) && |cut| < 6
    requires tail == SpellAll(next) + cut && Loads(tail).None?
    requires next != [] ==> Loads(SpellAll(next[1..]) + cut).None?
    ensures Loads(Escape(digits) + tail).None?
  {
    if !(HighSurrogate(HexValue(digits)) && StartsUnicode(tail)) {
      LoadsAlone(digits, tail);
    } else if next == [] {
      assert tail == cut;
      LoadsCut(digits, tail);
    } else {
      SpellSplits(next, cut);
      CutSecondFails(digits, next[0], SpellAll(next[1..]) + cut, tail);
    }
  }

  lemma CutSecondFails(digits: string, second: Token, rest: string, tail: string)
    requires Hex4(digits) && HighSurrogate(HexValue(digits)) && ValidToken(second)
    requires tail == Spell(second) + rest && StartsUnicode(tail) && Loads(tail).None? && Loads(rest).None?
    ensures Loads(Escape(digits) + tail).None?
  {
    FirstIsUnicode(second, rest);
    CutPairFails(digits, second.digits, rest);
  }

  lemma CutPairFails(high: string, low: string, rest: string)
    requires Hex4(high) && Hex4(low) && HighSurrogate(HexValue(high))
    requires Loads(rest).None? && Loads(Escape(low) + rest).None?
    ensures Loads(Escape(high) + (Escape(low) + rest)).None?
  {
    LoadsPair(high, low, rest);
  }

  lemma FirstIsUnicode(t: Token, tail: string)
    requires ValidToken(t) && StartsUnicode(Spell(t) + tail)
    ensures t.Unicode?
  {}

  // ---------------------------------------------------------------- the closing quote

  /** Where the first unescaped quote stands; the length when there is none. */
  function QuoteIndex(s: string, escaped: bool): (i: nat)
    ensures i <= |s|
  {
    if s == "" then 0
    else if escaped then 1 + QuoteIndex(s[1..], false)
    else if s[0] == '\\' then 1 + QuoteIndex(s[1..], true)
    else if s[0] == '"' then 0
    else 1 + QuoteIndex(s[1..], false)
  }

  method ClosingQuote(encoded: string) returns (closing: Option<nat>)
    ensures closing == if QuoteIndex(encoded, false) < |encoded| then Some(QuoteIndex(encoded, false)) else None
  {
    var escaped := false;
    for index := 0 to |encoded|
      invariant QuoteIndex(encoded, false) == index + QuoteIndex(encoded[index..], escaped)
    {
      assert encoded[index..][1..] == encoded[index + 1..];
      if escaped {
        escaped := false;
      } else if encoded[index] == '\\' {
        escaped := true;
      } else if encoded[index] == '"' {
        return Some(index);
      }
    }
    return None;
  }

  lemma {:induction false} QuoteSkipsPlain(s: string, tail: string)
    requires forall i :: 0 <= i < |s| ==> s[i] != '"' && s[i] != '\\'
    ensures QuoteIndex(s + tail, false) == |s| + QuoteIndex(tail, false)
  {
    if s == "" {
      assert s + tail == tail;
    } else {
      assert (s + tail)[1..] == s[1..] + tail;
      QuoteSkipsPlain(s[1..], tail);
    }
  }

  lemma QuoteSkipsToken(t: Token, tail: string)
    requires ValidToken(t)
    ensures QuoteIndex(Spell(t) + tail, false) == |Spell(t)| + QuoteIndex(tail, false)
  {
    var s := Spell(t) + tail;
    match t
    case Plain(c) => assert s[1..] == tail;
    case Short(c) =>
      assert s[1..][1..] == tail;
    case Unicode(digits) =>
      assert s[1..][1..] == digits + tail;
      QuoteSkipsPlain(digits, tail);
  }

  /** The first unescaped quote after a valid body is the one that closes it. */
  lemma {:induction false} QuoteSkipsTokens(ts: seq<Token>, tail: string)
    requires ValidTokens(ts)
    ensures QuoteIndex(SpellAll(ts) + tail, false) == |SpellAll(ts)| + QuoteIndex(tail, false)
  {
    if ts == [] {
      assert SpellAll(ts) + tail == tail;
    } else {
      assert SpellAll(ts) + tail == Spell(ts[0]) + (SpellAll(ts[1..]) + tail);
      QuoteSkipsToken(ts[0], SpellAll(ts[1..]) + tail);
      QuoteSkipsTokens(ts[1..], tail);
    }
  }

  /** Cutting a text keeps its first quote, or leaves it without one. */
  lemma {:induction false} QuoteOfPrefix(s: string, n: nat, escaped: bool)
    requires n <= |s|
    ensures QuoteIndex(s[..n], escaped) == Min(n, QuoteIndex(s, escaped))
  {
    if n > 0 {
      assert s[..n][1..] == s[1..][..n - 1];
      QuoteOfPrefix(s[1..], n - 1, if escaped then false else s[0] == '\\');
    }
  }

  // ---------------------------------------------------------------- trimming

  /** The first decodable text after trimming `t` or more characters, at most six in all. */
  function TrimDecode(encoded: string, t: nat): (text: Text)
    decreases 7 - t
  {
    if t > Min(6, |encoded|) then []
    else
      var decoded := Loads(encoded[..|encoded| - t]);
      if decoded.Some? then decoded.value else TrimDecode(encoded, t + 1)
  }

  function Enclosed(text: string): (result: string) {
    text[..QuoteIndex(text, false)]
  }

  /** What the decoder shows for the text after the opening quote. */
  function Shown(text: string): (result: Text) {
    TrimDecode(Enclosed(text), 0)
  }

  // ---------------------------------------------------------------- finding the field

  function SkipSpace(s: string, i: nat): (j: nat)
    requires i <= |s|
    ensures i <= j <= |s|
    decreases |s| - i
  {
    if i < |s| && ServerSpace(s[i] as nat) then SkipSpace(s, i + 1) else i
  }

  const FIELD := "\"answer\""

  /** Where a match of the field pattern that begins at `i` ends. */
  function MatchEnd(s: string, i: nat): (result: Option<nat>) {
    if !FieldAt(s, i) then None
    else
      var colon := SkipSpace(s, i + 8);
      if colon >= |s| || s[colon] != ':' then None
      else
        var quote := SkipSpace(s, colon + 1);
        if quote >= |s| || s[quote] != '"' then None else Some(quote + 1)
  }

  /** The end of the leftmost match at or after `i`. */
  function FieldEnd(s: string, i: nat): (result: Option<nat>)
    decreases |s| - i
  {
    if i >= |s| then None
    else if MatchEnd(s, i).Some? then MatchEnd(s, i)
    else FieldEnd(s, i + 1)
  }

  /** The decoded answer field of the arguments received so far. */
  function Field(arguments: string): (text: Text) {
    var end := FieldEnd(arguments, 0);
    if end.None? || end.value > |arguments| then [] else Shown(arguments[end.value..])
  }

  /** The streamed text of the answer field; empty before its opening quote has arrived. */
  method PartialJsonStringField(arguments: string) returns (decoded: Text)
    ensures decoded == Field(arguments)
  {
    var i := 0;
    var end: Option<nat> := None;
    while i < |arguments| && end.None?
      invariant 0 <= i <= |arguments|
      invariant end.None? ==> FieldEnd(arguments, 0) == FieldEnd(arguments, i)
      invariant end.Some? ==> FieldEnd(arguments, 0) == end && end.value <= |arguments|
      decreases |arguments| - i, if end.None? then 1 else 0
    {
      end := MatchEnd(arguments, i);
      if end.None? {
        i := i + 1;
      }
    }
    if end.None? {
      return [];
    }
    var encoded := arguments[end.value..];
    ghost var text := encoded;
    var closing := ClosingQuote(encoded);
    if closing.Some? {
      encoded := encoded[..closing.value];
    }
    assert encoded == Enclosed(text);
    for trim := 0 to Min(6, |encoded|) + 1
      invariant TrimDecode(encoded, 0) == TrimDecode(encoded, trim)
    {
      var candidate := encoded[..|encoded| - trim];
      var attempt := Loads(candidate);
      if attempt.Some? {
        return attempt.value;
      }
    }
    return [];
  }

  lemma {:induction false} SkipSpaceStable(s: string, more: string, i: nat)
    requires i <= |s| && SkipSpace(s, i) < |s|
    ensures SkipSpace(s + more, i) == SkipSpace(s, i)
    decreases |s| - i
  {
    if i < |s| && ServerSpace(s[i] as nat) { SkipSpaceStable(s, more, i + 1); }
  }

  lemma MatchEndStable(s: string, more: string, i: nat)
    requires MatchEnd(s, i).Some?
    ensures MatchEnd(s + more, i) == MatchEnd(s, i)
  {
    assert (s + more)[i..i + 8] == s[i..i + 8];
    SkipSpaceStable(s, more, i + 8);
    SkipSpaceStable(s, more, SkipSpace(s, i + 8) + 1);
  }

  /** The pattern's first match is fixed once it has arrived. */
  lemma {:induction false} FieldEndStable(s: string, more: string, i: nat)
    requires FieldEnd(s, i) == Some(|s|)
    ensures FieldEnd(s + more, i) == Some(|s|)
    decreases |s| - i
  {
    if MatchEnd(s, i).Some? {
      MatchEndStable(s, more, i);
    } else {
      FieldEndStable(s, more, i + 1);
      NoEarlierMatch(s, more, i);
    }
  }

  lemma {:induction false} FieldEndMatches(s: string, i: nat) returns (j: nat)
    requires FieldEnd(s, i).Some?
    ensures i <= j < |s| && MatchEnd(s, j) == FieldEnd(s, i)
    decreases |s| - i
  {
    if MatchEnd(s, i).Some? { j := i; } else { j := FieldEndMatches(s, i + 1); }
  }

  /** No match can begin earlier and end later: between its quotes there is only space and a colon. */
  lemma NoEarlierMatch(s: string, more: string, i: nat)
    requires i < |s| && MatchEnd(s, i).None? && FieldEnd(s, i + 1) == Some(|s|)
    ensures MatchEnd(s + more, i).None?
  {
    var j := FieldEndMatches(s, i + 1);
    var t := s + more;
    assert t[j..j + 8] == s[j..j + 8];
    QuotesOfField(t, j, 0);
    if FieldAt(t, i) {
      FieldsApart(t, i, j);
      QuotesOfField(t, j, 1);
      if i + 8 <= j { NoMatchAcross(s, more, t, i, j); }
    }
  }

  /** Two places where the field name stands share a quote at most. */
  lemma FieldsApart(t: string, i: nat, j: nat)
    requires FieldAt(t, i) && FieldAt(t, j) && i < j
    ensures i + 7 <= j
  {
    QuotesOfField(t, j, 0);
    if j - i < 8 { QuotesOfField(t, i, j - i); }
  }

  lemma NoMatchAcross(s: string, more: string, t: string, i: nat, j: nat)
    requires t == s + more && FieldAt(t, i) && i + 8 <= j < |s| && t[j] == '"'
    requires MatchEnd(s, i).None?
    ensures MatchEnd(t, i).None?
  {
    assert s[i..i + 8] == t[i..i + 8];
    SkipSpaceStops(t, i + 8, j);
    SkipSpaceOfPrefix(s, more, i + 8);
    var colon := SkipSpace(t, i + 8);
    if t[colon] == ':' {
      SkipSpaceStops(t, colon + 1, j);
      SkipSpaceOfPrefix(s, more, colon + 1);
    }
  }

  /** The field name stands at `i`. */
  predicate FieldAt(t: string, i: nat) {
    i + 8 <= |t| && t[i..i + 8] == FIELD
  }

  lemma QuotesOfField(t: string, i: nat, k: nat)
    requires FieldAt(t, i) && k < 8
    ensures t[i + k] == FIELD[k]
    ensures t[i + k] == '"' <==> k == 0 || k == 7
  {
    assert t[i + k] == t[i..i + 8][k];
    assert FIELD == ['"', 'a', 'n', 's', 'w', 'e', 'r', '"'];
  }

  lemma {:induction false} SkipSpaceStops(t: string, i: nat, j: nat)
    requires i <= j < |t| && !ServerSpace(t[j] as nat)
    ensures SkipSpace(t, i) <= j
    decreases j - i
  {
    if i < j && ServerSpace(t[i] as nat) { SkipSpaceStops(t, i + 1, j); }
  }

  lemma {:induction false} SkipSpaceOfPrefix(s: string, more: string, i: nat)
    requires i <= |s| && SkipSpace(s + more, i) < |s|
    ensures SkipSpace(s, i) == SkipSpace(s + more, i)
    decreases |s| - i
  {
    if i < |s| && ServerSpace(s[i] as nat) { SkipSpaceOfPrefix(s, more, i + 1); }
  }

  // ---------------------------------------------------------------- every prefix of the arguments

  /** How many tokens lie wholly within the first `n` characters. */
  function WholeTokens(ts: seq<Token>, n: nat): (k: nat)
    ensures k <= |ts|
  {
    if ts == [] || |Spell(ts[0])| > n then 0 else 1 + WholeTokens(ts[1..], n - |Spell(ts[0])|)
  }

  /** The characters of `n` that lie beyond its whole tokens. */
  function Overhang(ts: seq<Token>, n: nat): (j: nat)
    ensures j <= n
  {
    if ts == [] || |Spell(ts[0])| > n then n else Overhang(ts[1..], n - |Spell(ts[0])|)
  }

  lemma TakeBeyond(first: string, tail: string, n: nat)
    requires |first| <= n <= |first + tail|
    ensures (first + tail)[..n] == first + tail[..n - |first|]
  {}

  lemma RegroupText(a: string, b: string, c: string)
    ensures a + (b + c) == (a + b) + c
  {}

  lemma SpellOfTake(ts: seq<Token>, k: nat)
    requires 0 < k <= |ts|
    ensures SpellAll(ts[..k]) == Spell(ts[0]) + SpellAll(ts[1..][..k - 1])
  {
    assert ts[..k][1..] == ts[1..][..k - 1];
  }

  lemma {:induction false} PrefixSplits(ts: seq<Token>, n: nat)
    requires n <= |SpellAll(ts)|
    ensures var k, j := WholeTokens(ts, n), Overhang(ts, n);
            if k == |ts| then j == 0 && SpellAll(ts)[..n] == SpellAll(ts)
            else j < |Spell(ts[k])| && SpellAll(ts)[..n] == SpellAll(ts[..k]) + Spell(ts[k])[..j]
  {
    if ts != [] {
      var first := Spell(ts[0]);
      var tail := SpellAll(ts[1..]);
      if |first| > n {
        assert SpellAll(ts)[..n] == first[..n];
        assert SpellAll(ts[..0]) + first[..n] == first[..n];
      } else {
        var m := n - |first|;
        PrefixSplits(ts[1..], m);
        var k, j := WholeTokens(ts[1..], m), Overhang(ts[1..], m);
        TakeBeyond(first, tail, n);
        if k < |ts[1..]| {
          SpellOfTake(ts, k + 1);
          RegroupText(first, SpellAll(ts[1..][..k]), Spell(ts[1..][k])[..j]);
        }
      }
    }
  }

  lemma TrimStep(encoded: string, trim: nat, candidate: string)
    requires trim <= |encoded| && trim <= 6 && candidate == encoded[..|encoded| - trim]
    ensures TrimDecode(encoded, trim) ==
            if Loads(candidate).Some? then Loads(candidate).value else TrimDecode(encoded, trim + 1)
  {}

  lemma SpellIsShort(t: Token)
    requires ValidToken(t)
    ensures 1 <= |Spell(t)| <= 6
  {}

  lemma CutOfSpelling(whole: string, spelled: string, j: nat, trim: nat, encoded: string)
    requires trim <= j <= |spelled| && encoded == whole + spelled[..j]
    ensures encoded[..|encoded| - trim] == whole + spelled[..j - trim]
  {}

  lemma {:induction false} TrimFindsBoundary(ts: seq<Token>, t: Token, j: nat, trim: nat)
    requires ValidTokens(ts) && ValidToken(t) && trim <= j < |Spell(t)|
    ensures Loads(SpellAll(ts)).Some?
    ensures TrimDecode(SpellAll(ts) + Spell(t)[..j], trim) == Loads(SpellAll(ts)).value
    decreases j - trim
  {
    var whole, encoded := SpellAll(ts), SpellAll(ts) + Spell(t)[..j];
    LoadsTokens(ts);
    SpellIsShort(t);
    CutOfSpelling(whole, Spell(t), j, trim, encoded);
    TrimStep(encoded, trim, whole + Spell(t)[..j - trim]);
    if trim < j {
      CutTokenFails(ts, t, j - trim);
      TrimFindsBoundary(ts, t, j, trim + 1);
    } else {
      assert whole + Spell(t)[..0] == whole;
    }
  }

  /** A body, its closing quote and whatever follows it. */
  function Quoted(ts: seq<Token>, rest: string): (text: string) {
    SpellAll(ts) + "\"" + rest
  }

  /** The part of the first `n` characters before the true closing quote. */
  lemma EnclosedPrefix(ts: seq<Token>, rest: string, n: nat)
    requires ValidTokens(ts) && n <= |Quoted(ts, rest)|
    ensures Enclosed(Quoted(ts, rest)[..n]) == SpellAll(ts)[..Min(n, |SpellAll(ts)|)]
  {
    var all := Quoted(ts, rest);
    assert all == SpellAll(ts) + ("\"" + rest);
    QuoteSkipsTokens(ts, "\"" + rest);
    QuoteOfPrefix(all, n, false);
  }

  /** What is shown for any prefix is the decoding of its whole tokens. */
  lemma ShownIsAligned(ts: seq<Token>, rest: string, n: nat)
    requires ValidTokens(ts) && n <= |Quoted(ts, rest)|
    ensures var whole := ts[..WholeTokens(ts, Min(n, |SpellAll(ts)|))];
            Loads(SpellAll(whole)) == Some(Shown(Quoted(ts, rest)[..n]))
                && Utf16(Shown(Quoted(ts, rest)[..n])) == Units(whole)
  {
    var m := Min(n, |SpellAll(ts)|);
    var k, j := WholeTokens(ts, m), Overhang(ts, m);
    EnclosedPrefix(ts, rest, n);
    PrefixSplits(ts, m);
    LoadsTokens(ts[..k]);
    if k == |ts| {
      assert ts[..k] == ts;
      var encoded := SpellAll(ts);
      assert SpellAll(ts)[..m] == encoded && encoded[..|encoded| - 0] == encoded;
    } else {
      TrimFindsBoundary(ts[..k], ts[k], j, 0);
    }
  }

  /** Prefix decoding: for arguments that have reached the opening quote of the answer field and
      continue with any prefix of a valid string body, its quote and more text, the decoder shows
      exactly the whole tokens received. */
  lemma PrefixDecoding(head: string, ts: seq<Token>, rest: string, n: nat)
    requires FieldEnd(head, 0) == Some(|head|)
    requires ValidTokens(ts) && n <= |Quoted(ts, rest)|
    ensures var whole := ts[..WholeTokens(ts, Min(n, |SpellAll(ts)|))];
            var shown := Field(head + Quoted(ts, rest)[..n]);
            Loads(SpellAll(whole)) == Some(shown) && Utf16(shown) == Units(whole)
  {
    var b := Quoted(ts, rest)[..n];
    FieldEndStable(head, b, 0);
    assert (head + b)[|head|..] == b;
    ShownIsAligned(ts, rest, n);
  }

  /** The first `n` characters with `trim` of them cut off again. */
  function Cut(s: string, n: nat, trim: nat): (text: string) {
    if trim <= n <= |s| then s[..n - trim] else ""
  }

  lemma CutsOfOverhang(all: string, n: nat, whole: string, token: string, j: nat)
    requires n <= |all| && j < |token| && all[..n] == whole + token[..j]
    ensures j <= n && Cut(all, n, j) == whole
    ensures forall trim: nat :: trim < j ==> Cut(all, n, trim) == whole + token[..j - trim]
  {
    assert |all[..n]| == n;
    forall trim: nat | trim <= j ensures Cut(all, n, trim) == whole + token[..j - trim] {
      assert Cut(all, n, trim) == all[..n][..n - trim];
    }
    assert whole + token[..0] == whole;
    assert Cut(all, n, j) == whole + token[..j - j];
  }

  /** Never more than five characters are trimmed: the first decodable cut is the overhang. */
  lemma TrimsAtMostFive(ts: seq<Token>, n: nat)
    requires ValidTokens(ts) && n <= |SpellAll(ts)|
    ensures Overhang(ts, n) <= 5
    ensures Loads(Cut(SpellAll(ts), n, Overhang(ts, n))).Some?
    ensures forall trim: nat :: trim < Overhang(ts, n) ==> Loads(Cut(SpellAll(ts), n, trim)).None?
  {
    var k, j := WholeTokens(ts, n), Overhang(ts, n);
    var all := SpellAll(ts);
    PrefixSplits(ts, n);
    LoadsTokens(ts[..k]);
    if k == |ts| {
      assert ts[..k] == ts;
      assert |all[..n]| == n;
      assert Cut(all, n, j) == all;
    } else {
      SpellIsShort(ts[k]);
      CutsOfOverhang(all, n, SpellAll(ts[..k]), Spell(ts[k]), j);
      forall trim: nat | trim < j ensures Loads(Cut(all, n, trim)).None? {
        CutTokenFails(ts[..k], ts[k], j - trim);
      }
    }
  }

  lemma {:induction false} UnitsOfPrefix(ts: seq<Token>, k: nat)
    requires ValidTokens(ts) && k <= |ts|
    ensures Units(ts[..k]) <= Units(ts)
  {
    if k > 0 {
      assert ts[..k][1..] == ts[1..][..k - 1];
      UnitsOfPrefix(ts[1..], k - 1);
    }
  }

  lemma {:induction false} WholeTokensGrow(ts: seq<Token>, m: nat, n: nat)
    requires m <= n
    ensures WholeTokens(ts, m) <= WholeTokens(ts, n)
  {
    if ts != [] && |Spell(ts[0])| <= m { WholeTokensGrow(ts[1..], m - |Spell(ts[0])|, n - |Spell(ts[0])|); }
  }

  lemma UnitsOfPrefixes(ts: seq<Token>, a: nat, b: nat)
    requires ValidTokens(ts) && a <= b <= |ts|
    ensures Units(ts[..a]) <= Units(ts[..b])
  {
    assert ts[..b][..a] == ts[..a];
    UnitsOfPrefix(ts[..b], a);
  }

  /** More input only extends what is shown, counted in code units. */
  lemma DecodingIsMonotone(head: string, ts: seq<Token>, rest: string, m: nat, n: nat)
    requires FieldEnd(head, 0) == Some(|head|)
    requires ValidTokens(ts) && m <= n <= |Quoted(ts, rest)|
    ensures Utf16(Field(head + Quoted(ts, rest)[..m])) <= Utf16(Field(head + Quoted(ts, rest)[..n]))
  {
    PrefixDecoding(head, ts, rest, m);
    PrefixDecoding(head, ts, rest, n);
    var size := |SpellAll(ts)|;
    WholeTokensGrow(ts, Min(m, size), Min(n, size));
    UnitsOfPrefixes(ts, WholeTokens(ts, Min(m, size)), WholeTokens(ts, Min(n, size)));
  }

  /** Once the closing quote has arrived the whole value is shown. */
  lemma DecodingCompletes(head: string, ts: seq<Token>, rest: string, n: nat)
    requires FieldEnd(head, 0) == Some(|head|)
    requires ValidTokens(ts) && |SpellAll(ts)| < n <= |Quoted(ts, rest)|
    ensures Utf16(Field(head + Quoted(ts, rest)[..n])) == Units(ts)
  {
    PrefixDecoding(head, ts, rest, n);
    AllTokensWhole(ts);
    assert ts[..|ts|] == ts;
  }

  lemma {:induction false} AllTokensWhole(ts: seq<Token>)
    ensures WholeTokens(ts, |SpellAll(ts)|) == |ts|
  {
    if ts != [] { AllTokensWhole(ts[1..]); }
  }
}
