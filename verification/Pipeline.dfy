/** From the arguments of the streamed output call to the client's screen and the stored row. */
module Pipeline {
  import opened Records
  import opened Transactions
  import opened Protocol
  import opened Client
  import opened JsonField
  import opened CodePoints
  import opened ObjectText
  import Agreement
  import Emitter
  import Stream

  // ---------------------------------------------------------------- prefixes of the arguments

  lemma {:induction false} FirstMatch(s: string, i: nat, j: nat) returns (x: nat)
    requires i <= j < |s| && MatchEnd(s, j).Some?
    ensures i <= x <= j && MatchEnd(s, x).Some? && FieldEnd(s, i) == MatchEnd(s, x)
    decreases j - i
  {
    if MatchEnd(s, i).Some? { x := i; } else { x := FirstMatch(s, i + 1, j); }
  }

  /** A match that begins before another ends at most at the other's opening quote. */
  lemma EarlierMatchEndsFirst(t: string, i: nat, j: nat, end: nat)
    requires MatchEnd(t, i) == Some(end) && MatchEnd(t, j).Some? && i < j
    ensures end <= j + 1
  {
    FieldsApart(t, i, j);
    QuotesOfField(t, j, 0);
    QuotesOfField(t, j, 1);
    var colon := SkipSpace(t, i + 8);
    if i + 8 <= j {
      SkipSpaceStops(t, i + 8, j);
      if colon < j { SkipSpaceStops(t, colon + 1, j); }
    }
  }

  lemma MatchFits(s: string, i: nat, end: nat)
    requires MatchEnd(s, i) == Some(end)
    ensures i + 10 <= end <= |s|
  {}

  /** Every match in a text whose first match ends it ends it too. */
  lemma MatchReachesEnd(head: string, j: nat, end: nat)
    requires FieldEnd(head, 0) == Some(|head|) && j < |head| && MatchEnd(head, j) == Some(end)
    ensures end == |head|
  {
    var x := FirstMatch(head, 0, j);
    LaterMatchEnds(head, x, j, end);
  }

  lemma LaterMatchEnds(head: string, x: nat, j: nat, end: nat)
    requires x <= j && MatchEnd(head, x) == Some(|head|) && MatchEnd(head, j) == Some(end)
    ensures end == |head|
  {
    MatchFits(head, j, end);
    if x < j { EarlierMatchEndsFirst(head, x, j, |head|); }
  }

  /** Before the opening quote of the field has arrived nothing matches. */
  lemma NoMatchYet(head: string, k: nat, p: string)
    requires FieldEnd(head, 0) == Some(|head|) && k < |head| && p == head[..k]
    ensures FieldEnd(p, 0).None?
  {
    assert p + head[k..] == head;
    if FieldEnd(p, 0).Some? {
      var j := FieldEndMatches(p, 0);
      var end := MatchEnd(p, j).value;
      MatchFits(p, j, end);
      MatchEndStable(p, head[k..], j);
      MatchReachesEnd(head, j, end);
    }
  }

  /** An argument text: its answer field opens where `head` ends and holds the tokens `ts`. */
  datatype Arguments = Arguments(head: string, ts: seq<Token>, rest: string)

  predicate ValidArguments(a: Arguments) {
    FieldEnd(a.head, 0) == Some(|a.head|) && ValidTokens(a.ts)
  }

  function Spelled(a: Arguments): (text: string) {
    a.head + Quoted(a.ts, a.rest)
  }

  /** In the text of a flat object the answer field opens at the member that holds the answer, exactly when
      no member before it is found first. */
  lemma ObjectArguments(ms: seq<Member>, m: Member, ts: seq<Token>, rest: string)
    requires (forall i :: 0 <= i < |ms| ==> ValidMember(ms[i])) && ValidMember(m) && NamesField(m) && m.value == Str(ts)
    ensures ValidArguments(Arguments(HeadText(ms, m), ts, rest)) <==> NoneOpens(ms)
    ensures Spelled(Arguments(HeadText(ms, m), ts, rest)) ==
            "{" + (MembersText(ms) + (m.lead + (InQuotes(m.name) + ((Colon(m) + "\"") + Quoted(ts, rest)))))
  {
    JoinInside("{", MembersText(ms), m.lead, InQuotes(m.name), Colon(m) + "\"", Quoted(ts, rest));
    FieldOpensAtFirst(ms, m);
  }

  /** How many tokens of the answer a prefix of this length has brought. */
  function Brought(a: Arguments, k: nat): (n: nat)
    ensures n <= |a.ts|
  {
    if k < |a.head| then 0 else Arrived(a.ts, k - |a.head|)
  }

  lemma BroughtGrows(a: Arguments, j: nat, k: nat)
    requires j <= k
    ensures Brought(a, j) <= Brought(a, k)
  {
    if |a.head| <= j { ArrivedGrows(a.ts, j - |a.head|, k - |a.head|); }
  }

  /** The text shown for any prefix of the arguments is the tokens it has brought. */
  lemma FieldOfPrefix(a: Arguments, k: nat)
    requires ValidArguments(a) && k <= |Spelled(a)|
    ensures Field(Spelled(a)[..k]) == Points(a.ts[..Brought(a, k)])
  {
    if k < |a.head| {
      assert Spelled(a)[..k] == a.head[..k];
      NoMatchYet(a.head, k, a.head[..k]);
    } else {
      assert Spelled(a)[..k] == a.head + Quoted(a.ts, a.rest)[..k - |a.head|];
      FieldIsPoints(a.head, a.ts, a.rest, k - |a.head|);
    }
  }

  lemma AllBrought(a: Arguments, k: nat)
    requires |a.head| + |SpellAll(a.ts)| < k
    ensures Brought(a, k) == |a.ts|
  {
    AllTokensWhole(a.ts);
  }

  // ---------------------------------------------------------------- the streamed part

  /** What the model's stream brings: a chunk of the output call's arguments, or anything else. With a
      chunk come the action and, once it is there, the answer that the lenient parser reads. */
  datatype Piece =
    | Chunk(first: bool, text: string, action: string, parsed: Option<Text>)
    | Aside(event: Emitter.PartEvent)

  /** The arguments accumulated so far. */
  function Accumulated(pieces: seq<Piece>): (args: string) {
    if pieces == [] then ""
    else
      Accumulated(pieces[..|pieces| - 1]) +
      (if pieces[|pieces| - 1].Chunk? then pieces[|pieces| - 1].text else "")
  }

  /** `_streamed_answer`: the parsed answer if there is one, else the decoded field. */
  function StreamedAnswer(parsed: Option<Text>, args: string): (answer: Text) {
    if parsed.Some? then parsed.value else Field(args)
  }

  function PartAt(pieces: seq<Piece>, i: nat): (e: Emitter.PartEvent)
    requires i < |pieces|
  {
    match pieces[i]
    case Aside(event) => event
    case Chunk(first, _, action, parsed) =>
      var answer := StreamedAnswer(parsed, Accumulated(pieces[..i + 1]));
      if first then Emitter.OutputStart(action, answer) else Emitter.OutputDelta(action, answer)
  }

  function Parts(pieces: seq<Piece>): (events: seq<Emitter.PartEvent>) {
    seq(|pieces|, i requires 0 <= i < |pieces| => PartAt(pieces, i))
  }

  /** The lenient parser reads an answer only once it is closed, and then reads all of it. */
  predicate ParsesWhole(a: Arguments, parsed: Option<Text>, k: nat) {
    parsed.Some? && ValidTokens(a.ts) ==> |a.head| + |SpellAll(a.ts)| < k && parsed.value == Points(a.ts)
  }

  /** The pieces bring a prefix of these arguments. */
  predicate Streams(a: Arguments, pieces: seq<Piece>) {
    && ValidArguments(a) && Accumulated(pieces) <= Spelled(a)
    && forall i :: 0 <= i < |pieces| ==>
         match pieces[i]
         case Aside(event) => !Emitter.IsOutput(event)
         case Chunk(_, _, _, parsed) => ParsesWhole(a, parsed, |Accumulated(pieces[..i + 1])|)
  }

  lemma {:induction false} AccumulatedGrows(pieces: seq<Piece>, n: nat)
    requires n <= |pieces|
    ensures Accumulated(pieces[..n]) <= Accumulated(pieces)
  {
    if n == |pieces| {
      assert pieces[..n] == pieces;
    } else {
      var most := pieces[..|pieces| - 1];
      assert most[..n] == pieces[..n];
      AccumulatedGrows(most, n);
    }
  }

  /** How much of the arguments has been accumulated with the i-th piece. */
  function Reached(pieces: seq<Piece>, i: nat): (k: nat)
    requires i < |pieces|
  {
    |Accumulated(pieces[..i + 1])|
  }

  lemma ReachedGrows(pieces: seq<Piece>, i: nat, j: nat)
    requires i <= j < |pieces|
    ensures Reached(pieces, i) <= Reached(pieces, j)
  {
    assert pieces[..j + 1][..i + 1] == pieces[..i + 1];
    AccumulatedGrows(pieces[..j + 1], i + 1);
  }

  lemma AnswerOf(a: Arguments, parsed: Option<Text>, args: string)
    requires ValidArguments(a) && args <= Spelled(a) && ParsesWhole(a, parsed, |args|)
    ensures StreamedAnswer(parsed, args) == Points(a.ts[..Brought(a, |args|)])
  {
    assert args == Spelled(a)[..|args|];
    FieldOfPrefix(a, |args|);
    if parsed.Some? {
      AllBrought(a, |args|);
      assert a.ts[..|a.ts|] == a.ts;
    }
  }

  /** Each output event of the part carries the tokens brought so far. */
  lemma AnswerAt(a: Arguments, pieces: seq<Piece>, i: nat)
    requires Streams(a, pieces) && i < |pieces| && pieces[i].Chunk?
    ensures Parts(pieces)[i].answer == Points(a.ts[..Brought(a, Reached(pieces, i))])
    ensures Reached(pieces, i) <= |Spelled(a)|
  {
    AccumulatedGrows(pieces, i + 1);
    AnswerOf(a, pieces[i].parsed, Accumulated(pieces[..i + 1]));
  }

  lemma AnswersBegin(a: Arguments, pieces: seq<Piece>, i: nat, k: nat)
    requires Streams(a, pieces) && i < |pieces| && pieces[i].Chunk? && Reached(pieces, i) <= k
    ensures Emitter.RevealableWords(Parts(pieces)[i].answer) <= Points(a.ts[..Brought(a, k)])
  {
    AnswerAt(a, pieces, i);
    BroughtGrows(a, Reached(pieces, i), k);
    RevealedBegins(a.ts, Brought(a, Reached(pieces, i)), Brought(a, k), Parts(pieces)[i].answer,
                   Points(a.ts[..Brought(a, k)]));
  }

  /** However the arguments are cut into chunks, through escapes and surrogate pairs too, what each
      streamed answer lets be revealed begins all later ones. */
  lemma PartsFormChain(a: Arguments, pieces: seq<Piece>)
    requires Streams(a, pieces)
    ensures Emitter.Chain(Parts(pieces))
    ensures forall i :: 0 <= i < |pieces| && Emitter.IsOutput(Parts(pieces)[i]) ==>
              Emitter.RevealableWords(Parts(pieces)[i].answer) <= Points(a.ts)
  {
    var parts := Parts(pieces);
    forall i, j | 0 <= i < j < |parts| && Emitter.IsOutput(parts[i]) && Emitter.IsOutput(parts[j])
      ensures Emitter.RevealableWords(parts[i].answer) <= parts[j].answer
    {
      ReachedGrows(pieces, i, j);
      AnswerAt(a, pieces, j);
      AnswersBegin(a, pieces, i, Reached(pieces, j));
    }
    forall i | 0 <= i < |parts| && Emitter.IsOutput(parts[i])
      ensures Emitter.RevealableWords(parts[i].answer) <= Points(a.ts)
    {
      var k := Reached(pieces, i) + |a.head| + |SpellAll(a.ts)| + 1;
      AllBrought(a, k);
      assert a.ts[..|a.ts|] == a.ts;
      AnswersBegin(a, pieces, i, k);
    }
  }

  // ---------------------------------------------------------------- to both ends

  /** The end of the part: its arguments are complete. */
  function EndOf(a: Arguments, action: string, parsed: Option<Text>): (e: Emitter.PartEvent) {
    Emitter.OutputEnd(action, StreamedAnswer(parsed, Spelled(a)))
  }

  lemma EndIsWhole(a: Arguments, action: string, parsed: Option<Text>)
    requires ValidArguments(a) && ParsesWhole(a, parsed, |Spelled(a)|)
    ensures EndOf(a, action, parsed).answer == Points(a.ts)
  {
    AnswerOf(a, parsed, Spelled(a));
    AllBrought(a, |Spelled(a)|);
    assert a.ts[..|a.ts|] == a.ts;
  }

  /** The whole pipeline: however the arguments of the output call are cut into chunks, when the run is
      concluded with the answer they spell, the client's screen and the stored row both hold exactly
      the code points of that answer. Earlier attempts may have left answer events before these. */
  lemma ArgumentsReachBoth(a: Arguments, pieces: seq<Piece>, action: string, parsed: Option<Text>, db: Db, r: RunId,
                           earlier: seq<Body>, turn: Turn, now: Time, c: Chat, later: seq<Event>)
    requires Streams(a, pieces) && ParsesWhole(a, parsed, |Spelled(a)|) && Emitter.Revealing(action)
    requires Unfinished(db, r) && Agreement.InProgress(db.runs[r].log) && OwnsConversation(db, db.runs[r])
    requires Agreement.Unanswered(c, db.runs[r].message)
    requires Emitter.AnswerEvents(Agreement.Bodies(db.runs[r].log)) ==
             earlier +
                 Emitter.AnswerEvents(Emitter.ReactAll(Emitter.INITIAL,
                                                       Parts(pieces) + [EndOf(a, action, parsed)]).sent)
    requires turn.AnswerTurn? && turn.text == Points(a.ts) && ValidTurn(turn)
    ensures var after := ConcludeRun(db, r, turn, now);
            var m := db.runs[r].message;
            && r in after.runs && Agreement.Stored(after, m) == Some(Points(a.ts))
            && Agreement.Shown(c, m, Stream.UpToTerminal(after.runs[r].log + later)) == Some(Points(a.ts))
  {
    PartsFormChain(a, pieces);
    EndIsWhole(a, action, parsed);
    Agreement.StreamedAnswerReachesBoth(db, r, Parts(pieces), EndOf(a, action, parsed), earlier, turn, now, c, later);
  }
}
