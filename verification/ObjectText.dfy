/** Where the answer field of an output call's arguments opens: the text of a flat JSON object. */
module ObjectText {
  import opened Records
  import opened JsonField

  // ---------------------------------------------------------------- the text of a flat object

  /** A string, or a number or literal. */
  datatype Value = Str(ts: seq<Token>) | Scalar(text: string)

  /** A member with the white space around its parts. */
  datatype Member = Member(lead: string, name: seq<Token>, gap: string, pad: string, value: Value, tail: string)

  predicate Spaces(s: string) {
    forall i :: 0 <= i < |s| ==> s[i] in {' ', '\t', '\n', '\r'}
  }

  predicate ValidValue(v: Value) {
    match v
    case Str(ts) => ValidTokens(ts)
    case Scalar(text) => text != "" && !ServerSpace(text[0] as nat) && '"' !in text
  }

  predicate ValidMember(m: Member) {
    && Spaces(m.lead) && Spaces(m.gap) && Spaces(m.pad) && Spaces(m.tail)
    && ValidTokens(m.name) && ValidValue(m.value)
  }

  function InQuotes(ts: seq<Token>): (text: string) {
    "\"" + SpellAll(ts) + "\""
  }

  function ValueText(v: Value): (text: string) {
    match v
    case Str(ts) => InQuotes(ts)
    case Scalar(text) => text
  }

  /** What stands between a member's name and its value. */
  function Colon(m: Member): (text: string) {
    m.gap + ":" + m.pad
  }

  function MemberText(m: Member): (text: string) {
    m.lead + (InQuotes(m.name) + (Colon(m) + (ValueText(m.value) + (m.tail + ","))))
  }

  /** Members, each with the comma that follows it. */
  function MembersText(ms: seq<Member>): (text: string) {
    if ms == [] then "" else MemberText(ms[0]) + MembersText(ms[1..])
  }

  /** The text of an object up to the opening quote of a member's string value. */
  function HeadText(ms: seq<Member>, m: Member): (text: string) {
    "{" + (MembersText(ms) + (m.lead + (InQuotes(m.name) + (Colon(m) + "\""))))
  }

  /** The member's name, as it is spelled in quotes, ends in the field's own quoted name. */
  predicate NamesField(m: Member) {
    EndsField(InQuotes(m.name))
  }

  predicate EndsField(text: string) {
    |text| >= 8 && text[|text| - 8..] == FIELD
  }

  // ---------------------------------------------------------------- the search, piece by piece

  function Shift(n: nat, at: Option<nat>): (shifted: Option<nat>) {
    if at.Some? then Some(n + at.value) else None
  }

  /** What must follow the field's name: a colon and an opening quote, with white space around. */
  function After(b: string): (end: Option<nat>) {
    var colon := SkipSpace(b, 0);
    if colon >= |b| || b[colon] != ':' then None
    else
      var quote := SkipSpace(b, colon + 1);
      if quote >= |b| || b[quote] != '"' then None else Some(quote + 1)
  }

  lemma {:induction false} SkipSpaceOfRest(s: string, n: nat, b: string, i: nat)
    requires n <= |s| && b == s[n..] && i <= |b|
    ensures SkipSpace(s, n + i) == n + SkipSpace(b, i)
    decreases |b| - i
  {
    if i < |b| && ServerSpace(b[i] as nat) { SkipSpaceOfRest(s, n, b, i + 1); }
  }

  lemma MatchIsAfter(s: string, i: nat, b: string)
    requires FieldAt(s, i) && b == s[i + 8..]
    ensures MatchEnd(s, i) == Shift(i + 8, After(b))
  {
    SkipSpaceOfRest(s, i + 8, b, 0);
    var colon := SkipSpace(b, 0);
    if colon < |b| && b[colon] == ':' { SkipSpaceOfRest(s, i + 8, b, colon + 1); }
  }

  lemma ShiftTwice(m: nat, n: nat, at: Option<nat>)
    ensures Shift(m + n, at) == Shift(m, Shift(n, at))
  {}

  lemma FieldAtShifts(a: string, b: string, i: nat)
    ensures FieldAt(a + b, |a| + i) <==> FieldAt(b, i)
  {
    if i + 8 <= |b| { assert (a + b)[|a| + i..|a| + i + 8] == b[i..i + 8]; }
  }

  lemma RestOfJoin(a: string, b: string, n: nat)
    requires n <= |b|
    ensures (a + b)[|a| + n..] == b[n..]
  {}

  lemma MatchShifts(a: string, b: string, i: nat)
    ensures MatchEnd(a + b, |a| + i) == Shift(|a|, MatchEnd(b, i))
  {
    FieldAtShifts(a, b, i);
    if FieldAt(b, i) {
      var rest := b[i + 8..];
      RestOfJoin(a, b, i + 8);
      MatchIsAfter(b, i, rest);
      MatchIsAfter(a + b, |a| + i, rest);
      ShiftTwice(|a|, i + 8, After(rest));
    }
  }

  lemma {:induction false} FieldEndShifts(a: string, b: string, i: nat)
    ensures FieldEnd(a + b, |a| + i) == Shift(|a|, FieldEnd(b, i))
    decreases |b| - i
  {
    if i < |b| {
      MatchShifts(a, b, i);
      FieldEndShifts(a, b, i + 1);
    }
  }

  /** Where no match starts, the search goes on. */
  lemma {:induction false} SearchGoesOn(s: string, i: nat, n: nat)
    requires i <= n <= |s| && forall k :: i <= k < n ==> MatchEnd(s, k).None?
    ensures FieldEnd(s, i) == FieldEnd(s, n)
    decreases n - i
  {
    if i < n { SearchGoesOn(s, i + 1, n); }
  }

  lemma StartsWithQuote(s: string, i: nat)
    requires FieldAt(s, i)
    ensures i + 8 <= |s| && s[i] == '"' && s[i + 7] == '"' && s[i + 6] == 'r' && s[i + 1] == 'a'
    ensures forall k :: i < k < i + 7 ==> s[k] != '"'
  {
    QuotesOfField(s, i, 1);
    QuotesOfField(s, i, 6);
    forall k | i <= k < i + 8 ensures s[k] == '"' <==> k == i || k == i + 7 { QuotesOfField(s, i, k - i); }
  }

  /** Text without quotes is passed over. */
  lemma PlainIsPassed(a: string, b: string)
    requires '"' !in a
    ensures FieldEnd(a + b, 0) == Shift(|a|, FieldEnd(b, 0))
  {
    forall k | 0 <= k < |a| ensures MatchEnd(a + b, k).None? {
      if FieldAt(a + b, k) { StartsWithQuote(a + b, k); }
    }
    SearchGoesOn(a + b, 0, |a|);
    FieldEndShifts(a, b, 0);
  }

  /** Inside a string a quote is always escaped. */
  lemma {:induction false} QuotesAreEscaped(ts: seq<Token>, k: nat)
    requires ValidTokens(ts) && k < |SpellAll(ts)| && SpellAll(ts)[k] == '"'
    ensures k > 0 && SpellAll(ts)[k - 1] == '\\'
  {
    var first, rest := Spell(ts[0]), SpellAll(ts[1..]);
    if k < |first| {
      assert first[k] == '"';
    } else {
      assert rest[k - |first|] == '"';
      QuotesAreEscaped(ts[1..], k - |first|);
    }
  }

  lemma NoQuoteAfterLetter(ts: seq<Token>, k: nat)
    requires ValidTokens(ts) && 0 < k < |SpellAll(ts)| && SpellAll(ts)[k - 1] != '\\'
    ensures SpellAll(ts)[k] != '"'
  {
    if SpellAll(ts)[k] == '"' { QuotesAreEscaped(ts, k); }
  }

  /** A match that starts within a string starts at its very end. */
  lemma StartInString(ts: seq<Token>, b: string, i: nat)
    requires ValidTokens(ts) && i < |InQuotes(ts)| && FieldAt(InQuotes(ts) + b, i) && (b != "" ==> b[0] != 'a')
    ensures i + 8 == |InQuotes(ts)|
  {
    var a := InQuotes(ts);
    var s := a + b;
    var close := |a| - 1;
    StartsWithQuote(s, i);
    assert s[close] == '"' && (b != "" ==> s[close + 1] == b[0]);
    assert i + 7 <= close;
    if i + 7 < close {
      assert s[i + 6] == SpellAll(ts)[i + 5] && s[i + 7] == SpellAll(ts)[i + 6];
      NoQuoteAfterLetter(ts, i + 6);
    }
  }

  /** What the search finds once it has come to the end of a text: the match that the text begins, or the
      first one after it. */
  function Beyond(begins: bool, b: string): (at: Option<nat>) {
    if begins && After(b).Some? then After(b) else FieldEnd(b, 0)
  }

  lemma StringStarts(ts: seq<Token>, a: string, b: string, s: string)
    requires ValidTokens(ts) && a == InQuotes(ts) && s == a + b && (b != "" ==> b[0] != 'a')
    ensures forall k :: 0 <= k < |a| && k + 8 != |a| ==> MatchEnd(s, k).None?
  {
    forall k | 0 <= k < |a| && k + 8 != |a| ensures MatchEnd(s, k).None? {
      if FieldAt(s, k) { StartInString(ts, b, k); }
    }
  }

  /** A string is passed over, unless it ends in the field's name and is followed as the field is. */
  lemma StringIsPassed(ts: seq<Token>, a: string, b: string, s: string)
    requires ValidTokens(ts) && a == InQuotes(ts) && s == a + b && (b != "" ==> b[0] != 'a')
    ensures FieldEnd(s, 0) == Shift(|a|, Beyond(EndsField(a), b))
  {
    StringStarts(ts, a, b, s);
    FieldEndShifts(a, b, 0);
    if |a| >= 8 {
      LongStringIsPassed(a, b, s, |a| - 8);
    } else {
      SearchGoesOn(s, 0, |a|);
    }
  }

  lemma LongStringIsPassed(a: string, b: string, s: string, i: nat)
    requires i + 8 == |a| && s == a + b && FieldEnd(s, |a|) == Shift(|a|, FieldEnd(b, 0))
    requires forall k :: 0 <= k < |a| && k + 8 != |a| ==> MatchEnd(s, k).None?
    ensures FieldEnd(s, 0) == Shift(|a|, Beyond(EndsField(a), b))
  {
    assert s[i..i + 8] == a[i..];
    RestOfJoin(a, b, 0);
    SearchGoesOn(s, 0, i);
    if EndsField(a) { MatchIsAfter(s, i, b); }
    if MatchEnd(s, i).None? { SearchGoesOn(s, i, |a|); }
  }

  // ---------------------------------------------------------------- members and objects

  lemma SpacesAreSpace(s: string)
    requires Spaces(s)
    ensures (forall i :: 0 <= i < |s| ==> ServerSpace(s[i] as nat)) && '"' !in s && (s != "" ==> s[0] != 'a')
  {}

  lemma {:induction false} SpacesAreSkipped(s: string, rest: string, i: nat)
    requires i <= |s| && (forall k :: 0 <= k < |s| ==> ServerSpace(s[k] as nat))
    requires rest != "" && !ServerSpace(rest[0] as nat)
    ensures SkipSpace(s + rest, i) == |s|
    decreases |s| - i
  {
    if i < |s| {
      assert (s + rest)[i] == s[i];
      SpacesAreSkipped(s, rest, i + 1);
    } else {
      assert (s + rest)[i] == rest[0];
    }
  }

  /** After a name comes the value: a string's opening quote completes a match, a scalar does not. */
  lemma AfterName(m: Member, rest: string)
    requires ValidMember(m) && rest != "" && !ServerSpace(rest[0] as nat)
    ensures After(Colon(m) + rest) == if rest[0] == '"' then Some(|Colon(m)| + 1) else None
    ensures (Colon(m) + rest)[0] != 'a' && '"' !in Colon(m)
  {
    var b := Colon(m) + rest;
    SpacesAreSpace(m.gap);
    SpacesAreSpace(m.pad);
    assert b == m.gap + (":" + (m.pad + rest));
    SpacesAreSkipped(m.gap, ":" + (m.pad + rest), 0);
    assert b[|m.gap|] == ':';
    var front := m.gap + ":";
    assert b == front + (m.pad + rest);
    RestOfJoin(front, m.pad + rest, 0);
    SkipSpaceOfRest(b, |front|, m.pad + rest, 0);
    SpacesAreSkipped(m.pad, rest, 0);
    assert b[|front| + |m.pad|] == rest[0];
  }

  /** After a value come white space and a comma, which complete no match. */
  lemma AfterValue(m: Member, rest: string)
    requires ValidMember(m)
    ensures var b := m.tail + ("," + rest);
            After(b).None? && b[0] != 'a' && FieldEnd(b, 0) == Shift(|m.tail| + 1, FieldEnd(rest, 0))
  {
    SpacesAreSpace(m.tail);
    SpacesAreSkipped(m.tail, "," + rest, 0);
    assert m.tail + ("," + rest) == (m.tail + ",") + rest;
    assert (m.tail + ("," + rest))[|m.tail|] == ',';
    PlainIsPassed(m.tail + ",", rest);
  }

  /** The value and the comma after it hold no match. */
  lemma ValueIsPassed(m: Member, rest: string)
    requires ValidMember(m)
    ensures FieldEnd(ValueText(m.value) + (m.tail + ("," + rest)), 0) ==
            Shift(|ValueText(m.value)| + |m.tail| + 1, FieldEnd(rest, 0))
  {
    var b := m.tail + ("," + rest);
    AfterValue(m, rest);
    match m.value
    case Str(ts) => StringIsPassed(ts, InQuotes(ts), b, InQuotes(ts) + b);
    case Scalar(text) => PlainIsPassed(text, b);
  }

  /** A member's value begins with a quote exactly when it is a string. */
  lemma ValueBegins(v: Value, rest: string)
    requires ValidValue(v)
    ensures var text := ValueText(v) + rest;
            text != "" && !ServerSpace(text[0] as nat) && (text[0] == '"' <==> v.Str?)
  {}

  predicate Opens(m: Member) {
    NamesField(m) && m.value.Str?
  }

  lemma ColonStep(m: Member, rest: string, b: string)
    requires ValidMember(m) && rest != "" && !ServerSpace(rest[0] as nat) && b == Colon(m) + rest
    ensures b != "" && b[0] != 'a' && After(b) == if rest[0] == '"' then Some(|Colon(m)| + 1) else None
    ensures FieldEnd(b, 0) == Shift(|Colon(m)|, FieldEnd(rest, 0))
  {
    AfterName(m, rest);
    PlainIsPassed(Colon(m), rest);
  }

  /** How far a member's text reaches up to its value. */
  function Front(m: Member): (n: nat) {
    |m.lead| + |InQuotes(m.name)| + |Colon(m)|
  }

  lemma FrontAdds(m: Member, opens: bool, atValue: Option<nat>, atColon: Option<nat>, atLead: Option<nat>)
    requires atColon == if opens then Some(|Colon(m)| + 1) else Shift(|Colon(m)|, atValue)
    requires atLead == Shift(|m.lead|, Shift(|InQuotes(m.name)|, atColon))
    ensures atLead == if opens then Some(Front(m) + 1) else Shift(Front(m), atValue)
  {}

  /** The name of a member and what follows it, up to its value. */
  lemma NameOpensOrPasses(m: Member, rest: string, b: string, s: string, all: string)
    requires ValidMember(m) && rest != "" && !ServerSpace(rest[0] as nat)
    requires b == Colon(m) + rest && s == InQuotes(m.name) + b && all == m.lead + s
    ensures FieldEnd(all, 0) ==
            if NamesField(m) && rest[0] == '"' then Some(Front(m) + 1) else Shift(Front(m), FieldEnd(rest, 0))
  {
    SpacesAreSpace(m.lead);
    ColonStep(m, rest, b);
    StringIsPassed(m.name, InQuotes(m.name), b, s);
    PlainIsPassed(m.lead, s);
    FrontAdds(m, NamesField(m) && rest[0] == '"', FieldEnd(rest, 0), Beyond(NamesField(m), b), FieldEnd(all, 0));
  }

  lemma MemberJoins(m: Member, rest: string)
    ensures MemberText(m) + rest ==
            m.lead + (InQuotes(m.name) + (Colon(m) + (ValueText(m.value) + (m.tail + ("," + rest)))))
  {}

  /** A member is passed over, unless it opens the field. */
  lemma MemberIsPassed(m: Member, rest: string)
    requires ValidMember(m)
    ensures !Opens(m) ==> FieldEnd(MemberText(m) + rest, 0) == Shift(|MemberText(m)|, FieldEnd(rest, 0))
    ensures Opens(m) ==>
            FieldEnd(MemberText(m) + rest, 0).Some? && FieldEnd(MemberText(m) + rest, 0).value < |MemberText(m)|
  {
    MemberJoins(m, rest);
    ValueBegins(m.value, m.tail + ("," + rest));
    var value := ValueText(m.value) + (m.tail + ("," + rest));
    NameOpensOrPasses(m, value, Colon(m) + value, InQuotes(m.name) + (Colon(m) + value), MemberText(m) + rest);
    ValueIsPassed(m, rest);
  }

  predicate NoneOpens(ms: seq<Member>) {
    forall i :: 0 <= i < |ms| ==> !Opens(ms[i])
  }

  /** Where the search in a text with members ends, against the text after them. */
  predicate Passes(text: string, length: nat, rest: string, none: bool) {
    var end := FieldEnd(text, 0);
    if none then end == Shift(length, FieldEnd(rest, 0)) else end.Some? && end.value < length
  }

  lemma OneMorePassed(m: Member, tail: string, all: string, rest: string, length: nat, total: nat, none: bool)
    requires ValidMember(m) && all == MemberText(m) + tail && total == |MemberText(m)| + length
    requires Passes(tail, length, rest, none)
    ensures Passes(all, total, rest, !Opens(m) && none)
  {
    MemberIsPassed(m, tail);
  }

  lemma MembersJoin(ms: seq<Member>, rest: string)
    requires ms != []
    ensures MembersText(ms) + rest == MemberText(ms[0]) + (MembersText(ms[1..]) + rest)
    ensures |MembersText(ms)| == |MemberText(ms[0])| + |MembersText(ms[1..])|
  {
    RegroupText(MemberText(ms[0]), MembersText(ms[1..]), rest);
  }

  lemma JoinInside(a: string, b: string, c: string, d: string, e: string, f: string)
    ensures (a + (b + (c + (d + e)))) + f == a + (b + (c + (d + (e + f))))
  {
    RegroupText(a, b + (c + (d + e)), f);
    RegroupText(b, c + (d + e), f);
    RegroupText(c, d + e, f);
    RegroupText(d, e, f);
  }

  lemma {:induction false} MembersArePassed(ms: seq<Member>, rest: string)
    requires forall i :: 0 <= i < |ms| ==> ValidMember(ms[i])
    ensures Passes(MembersText(ms) + rest, |MembersText(ms)|, rest, NoneOpens(ms))
  {
    if ms == [] {
      assert MembersText(ms) + rest == rest;
    } else {
      var more := MembersText(ms[1..]);
      MembersArePassed(ms[1..], rest);
      FirstOpens(ms);
      MembersJoin(ms, rest);
      OneMorePassed(ms[0], more + rest, MembersText(ms) + rest, rest, |more|, |MembersText(ms)|, NoneOpens(ms[1..]));
    }
  }

  lemma FirstOpens(ms: seq<Member>)
    requires ms != []
    ensures NoneOpens(ms) <==> !Opens(ms[0]) && NoneOpens(ms[1..])
  {
    if !Opens(ms[0]) && NoneOpens(ms[1..]) {
      forall i | 0 <= i < |ms| ensures !Opens(ms[i]) { assert i > 0 ==> ms[i] == ms[1..][i - 1]; }
    }
  }

  /** In the text of a flat object the search finds the string value of the first member that has one and
      whose quoted name ends in the field's; a field text inside a value, or a null answer, does not count. */
  lemma FieldOpensAtFirst(ms: seq<Member>, m: Member)
    requires (forall i :: 0 <= i < |ms| ==> ValidMember(ms[i])) && ValidMember(m) && NamesField(m)
    ensures FieldEnd(HeadText(ms, m), 0) == Some(|HeadText(ms, m)|) <==> NoneOpens(ms)
  {
    var open := m.lead + (InQuotes(m.name) + (Colon(m) + "\""));
    PlainIsPassed("{", MembersText(ms) + open);
    MembersArePassed(ms, open);
    NameOpensOrPasses(m, "\"", Colon(m) + "\"", InQuotes(m.name) + (Colon(m) + "\""), open);
  }
}
