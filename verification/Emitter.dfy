/** Turning the model's part events into activity announcements and answer snapshots. */
module Emitter {
  import opened Records

  const SNAPSHOT_MIN_CHARS := 24

  /** Part events as the handler distinguishes them. An output event carries the action and the
      answer text that the accumulated arguments of the output part yield. */
  datatype PartEvent =
    | ThinkingProgress
    | OutputStart(action: string, answer: Text)
    | OutputDelta(action: string, answer: Text)
    | OutputEnd(action: string, answer: Text)
    | ToolCalled(tool: string)
    | ToolReturned(tool: string)
    | OtherPart

  datatype Activity = Activity(kind: string, caption: string, tool: Option<string>)

  const THINKING := Activity("thinking", "Thinking", None)
  const COMPOSING := Activity("composing", "Composing", None)

  function ToolLabel(tool: string): (text: string) {
    if tool == "archive_search" then "Searching archives"
    else if tool == "warframe_market_search" then "Checking market"
    else if tool == "build_calculator" then "Calculating build"
    else "Using tool"
  }

  /** The payload leaves out an empty tool name. */
  function Announcement(a: Activity): (result: Body) {
    StatusChanged(a.kind, a.caption, if a.tool.Some? && a.tool.value != "" then a.tool else None)
  }

  predicate Revealing(action: string) {
    action == "answer" || action == "urgent_safety"
  }

  // ---------------------------------------------------------------- revealable words

  /** `str.rfind` of one character. */
  function LastIndexOf(s: Text, c: nat): (n: int) {
    if s == [] then -1 else if s[|s| - 1] == c then |s| - 1 else LastIndexOf(s[..|s| - 1], c)
  }

  const SPACE: nat := 0x20
  const NEWLINE: nat := 0xA
  const TAB: nat := 0x9

  predicate BreakChar(c: nat) {
    c == SPACE || c == NEWLINE || c == TAB
  }

  lemma {:induction false} LastIndexOfIsLast(s: Text, c: nat)
    ensures var i := LastIndexOf(s, c);
            -1 <= i < |s| && (i >= 0 ==> s[i] == c) && forall j :: i < j < |s| ==> s[j] != c
  {
    if s != [] && s[|s| - 1] != c { LastIndexOfIsLast(s[..|s| - 1], c); }
  }

  function Boundary(s: Text): (n: int) {
    Max(Max(LastIndexOf(s, SPACE), LastIndexOf(s, NEWLINE)), LastIndexOf(s, TAB))
  }

  function RevealableWords(s: Text): (text: Text) {
    if 0 <= Boundary(s) < |s| then s[..Boundary(s) + 1] else []
  }

  /** The longest prefix that is empty or ends in a break. */
  lemma RevealableIsLongestBreak(s: Text)
    ensures var r := RevealableWords(s);
            && r <= s && (r != [] ==> BreakChar(r[|r| - 1]))
            && forall j :: |r| <= j < |s| ==> !BreakChar(s[j])
  {
    LastIndexOfIsLast(s, SPACE);
    LastIndexOfIsLast(s, NEWLINE);
    LastIndexOfIsLast(s, TAB);
  }

  // ---------------------------------------------------------------- the handler's state, as a value

  datatype View = View(hasPart: bool, started: bool, lastSnapshot: Text, lastActivity: Activity, sent: seq<Body>)

  /** `mark_working` has already announced Thinking. */
  const INITIAL := View(false, false, [], THINKING, [])

  function Announce(v: View, a: Activity): (after: View) {
    if a == v.lastActivity then v else v.(lastActivity := a, sent := v.sent + [Announcement(a)])
  }

  function Due(v: View, snapshot: Text, final: bool): (result: bool) {
    snapshot != [] && snapshot != v.lastSnapshot && (final || |snapshot| - |v.lastSnapshot| >= SNAPSHOT_MIN_CHARS)
  }

  function Show(v: View, answer: Text, final: bool): (after: View) {
    var snapshot := if final then answer else RevealableWords(answer);
    if !Due(v, snapshot, final) then v
    else v.(started := true, lastSnapshot := snapshot,
            sent := v.sent + (if v.started then [] else [AnswerStarted]) + [AnswerSnapshot(snapshot)])
  }

  function ShowIf(v: View, action: string, answer: Text, final: bool): (after: View) {
    if Revealing(action) then Show(v, answer, final) else v
  }

  function React(v: View, e: PartEvent): (after: View) {
    match e
    case ThinkingProgress => Announce(v, THINKING)
    case OutputStart(action, answer) => ShowIf(Announce(v.(hasPart := true), COMPOSING), action, answer, false)
    case OutputDelta(action, answer) => if v.hasPart then ShowIf(v, action, answer, false) else v
    case OutputEnd(action, answer) => ShowIf(v.(hasPart := true), action, answer, true)
    case ToolCalled(tool) =>
      Announce(v.(sent := v.sent + [ToolActivity("started", tool, ToolLabel(tool))]),
               Activity("tool", ToolLabel(tool), Some(tool)))
    case ToolReturned(tool) =>
      Announce(v.(sent := v.sent + [ToolActivity("completed", tool, "Reviewing")]),
               Activity("thinking", "Reviewing", Some(tool)))
    case OtherPart => v
  }

  function ReactAll(v: View, events: seq<PartEvent>): (after: View) {
    if events == [] then v else React(ReactAll(v, events[..|events| - 1]), events[|events| - 1])
  }

  // ---------------------------------------------------------------- the handler itself

  /** The event handler of one run; `sent` is what it has passed to `add_event`. */
  class Handler {
    var hasPart: bool
    var answerStarted: bool
    var lastSnapshot: Text
    var lastActivity: Activity
    var sent: seq<Body>

    ghost function Now(): (after: View)
      reads this
    {
      View(hasPart, answerStarted, lastSnapshot, lastActivity, sent)
    }

    constructor ()
      ensures Now() == INITIAL
    {
      hasPart := false;
      answerStarted := false;
      lastSnapshot := [];
      lastActivity := THINKING;
      sent := [];
    }

    method SetActivity(a: Activity)
      modifies this
      ensures Now() == Announce(old(Now()), a)
    {
      if a == lastActivity {
        return;
      }
      lastActivity := a;
      sent := sent + [Announcement(a)];
    }

    method EmitSnapshot(answer: Text, final: bool)
      modifies this
      ensures Now() == Show(old(Now()), answer, final)
      ensures if final then lastSnapshot == (if answer == [] then old(lastSnapshot) else answer)
              else KeptUp(answer, |lastSnapshot|)
    {
      RevealableIsLongestBreak(answer);
      var snapshot := if final then answer else RevealableWords(answer);
      if snapshot == [] || snapshot == lastSnapshot {
        return;
      }
      if !final && |snapshot| - |lastSnapshot| < SNAPSHOT_MIN_CHARS {
        return;
      }
      if !answerStarted {
        answerStarted := true;
        sent := sent + [AnswerStarted];
      }
      lastSnapshot := snapshot;
      sent := sent + [AnswerSnapshot(snapshot)];
    }

    method Handle(e: PartEvent)
      modifies this
      ensures Now() == React(old(Now()), e)
    {
      match e
      case ThinkingProgress =>
        SetActivity(THINKING);
      case OutputStart(action, answer) =>
        hasPart := true;
        SetActivity(COMPOSING);
        if Revealing(action) { EmitSnapshot(answer, false); }
      case OutputDelta(action, answer) =>
        if hasPart && Revealing(action) { EmitSnapshot(answer, false); }
      case OutputEnd(action, answer) =>
        hasPart := true;
        if Revealing(action) { EmitSnapshot(answer, true); }
      case ToolCalled(tool) =>
        sent := sent + [ToolActivity("started", tool, ToolLabel(tool))];
        SetActivity(Activity("tool", ToolLabel(tool), Some(tool)));
      case ToolReturned(tool) =>
        sent := sent + [ToolActivity("completed", tool, "Reviewing")];
        SetActivity(Activity("thinking", "Reviewing", Some(tool)));
      case OtherPart =>
    }

    method PersistEvents(events: seq<PartEvent>)
      modifies this
      ensures Now() == ReactAll(old(Now()), events)
      ensures old(Now()) == INITIAL && Chain(events) ==>
                forall k :: 0 <= k < |events| && Streams(events, k) ==> KeptUp(events[k].answer, |lastSnapshot|)
    {
      for i := 0 to |events|
        invariant Now() == ReactAll(old(Now()), events[..i])
      {
        assert events[..i + 1][..i] == events[..i];
        Handle(events[i]);
      }
      assert events[..|events|] == events;
      forall k | 0 <= k < |events| && Chain(events) && Streams(events, k)
        ensures KeptUp(events[k].answer, |ReactAll(INITIAL, events).lastSnapshot|)
      {
        StreamKeepsUp(events, k);
      }
    }
  }

  // ---------------------------------------------------------------- snapshots

  /** The answer events of a list, in order. */
  function AnswerEvents(sent: seq<Body>): (bodies: seq<Body>) {
    if sent == [] then []
    else
      var b := sent[|sent| - 1];
      AnswerEvents(sent[..|sent| - 1]) + (if b.AnswerStarted? || b.AnswerSnapshot? then [b] else [])
  }

  lemma AnswerEventsAppend(sent: seq<Body>, b: Body)
    ensures AnswerEvents(sent + [b]) == AnswerEvents(sent) + (if b.AnswerStarted? || b.AnswerSnapshot? then [b] else [])
  {
    assert (sent + [b])[..|sent|] == sent;
  }

  function Snapshots(texts: seq<Text>): (bodies: seq<Body>) {
    seq(|texts|, i requires 0 <= i < |texts| => AnswerSnapshot(texts[i]))
  }

  /** Each text is a proper prefix of every later one. */
  predicate StrictlyGrowing(texts: seq<Text>) {
    forall i, j :: 0 <= i < j < |texts| ==> texts[i] < texts[j]
  }

  predicate EndsInBreak(s: Text) {
    s != [] && BreakChar(s[|s| - 1])
  }

  /** The answer events are one start followed by exactly these snapshot texts. */
  predicate Shows(v: View, texts: seq<Text>) {
    && AnswerEvents(v.sent) == (if texts == [] then [] else [AnswerStarted]) + Snapshots(texts)
    && v.started == (texts != [])
    && v.lastSnapshot == (if texts == [] then [] else texts[|texts| - 1])
    && StrictlyGrowing(texts) && (forall t :: t in texts ==> t != [])
  }

  /** Before the part has ended: every text ends in a break and adds at least 24 characters. */
  predicate Partial(v: View, texts: seq<Text>) {
    && Shows(v, texts)
    && (forall t :: t in texts ==> EndsInBreak(t))
    && SNAPSHOT_MIN_CHARS * |texts| <= |v.lastSnapshot|
  }

  lemma AnnounceKeepsAnswers(v: View, a: Activity)
    ensures AnswerEvents(Announce(v, a).sent) == AnswerEvents(v.sent)
  {
    AnswerEventsAppend(v.sent, Announcement(a));
  }

  lemma PrefixesAreComparable(a: Text, b: Text, s: Text)
    requires a <= s && b <= s && |a| < |b|
    ensures a < b
  {
    assert a == s[..|a|] && b == s[..|b|];
  }

  lemma GrowingAppend(texts: seq<Text>, t: Text)
    requires StrictlyGrowing(texts) && (texts != [] ==> texts[|texts| - 1] < t)
    ensures StrictlyGrowing(texts + [t])
  {
    var more := texts + [t];
    forall i, j | 0 <= i < j < |more| ensures more[i] < more[j] {
      if j == |texts| && i < |texts| - 1 { assert texts[i] < texts[|texts| - 1]; }
    }
  }

  lemma ShowEvents(v: View, texts: seq<Text>, t: Text)
    requires Shows(v, texts)
    ensures AnswerEvents(v.sent + (if v.started then [] else [AnswerStarted]) + [AnswerSnapshot(t)]) ==
            [AnswerStarted] + Snapshots(texts + [t])
  {
    var before := v.sent + (if v.started then [] else [AnswerStarted]);
    AnswerEventsAppend(v.sent, AnswerStarted);
    assert v.sent + [] == v.sent;
    AnswerEventsAppend(before, AnswerSnapshot(t));
    assert AnswerEvents(before) == [AnswerStarted] + Snapshots(texts);
    assert Snapshots(texts + [t]) == Snapshots(texts) + [AnswerSnapshot(t)];
  }

  lemma ShowDue(v: View, texts: seq<Text>, snapshot: Text, after: View)
    requires Shows(v, texts) && snapshot != [] && (texts != [] ==> v.lastSnapshot < snapshot)
    requires after.started && after.lastSnapshot == snapshot
    requires after.sent == v.sent + (if v.started then [] else [AnswerStarted]) + [AnswerSnapshot(snapshot)]
    ensures Shows(after, texts + [snapshot])
  {
    GrowingAppend(texts, snapshot);
    ShowEvents(v, texts, snapshot);
  }

  lemma DueIsLonger(v: View, snapshot: Text, answer: Text, final: bool)
    requires v.lastSnapshot <= answer && snapshot <= answer && Due(v, snapshot, final) && (final ==> snapshot == answer)
    ensures v.lastSnapshot < snapshot
  {
    assert v.lastSnapshot == answer[..|v.lastSnapshot|] && answer[..|answer|] == answer;
    if |v.lastSnapshot| < |snapshot| { PrefixesAreComparable(v.lastSnapshot, snapshot, answer); }
  }

  lemma ShowExtends(v: View, texts: seq<Text>, answer: Text, final: bool, after: View, more: seq<Text>)
    requires Shows(v, texts) && v.lastSnapshot <= answer && after == Show(v, answer, final)
    requires var snapshot := if final then answer else RevealableWords(answer);
             more == if Due(v, snapshot, final) then texts + [snapshot] else texts
    ensures Shows(after, more) && after.lastSnapshot <= answer
  {
    var snapshot := if final then answer else RevealableWords(answer);
    RevealableIsLongestBreak(answer);
    if Due(v, snapshot, final) {
      DueIsLonger(v, snapshot, answer, final);
      ShowDue(v, texts, snapshot, after);
    }
  }

  predicate IsOutput(e: PartEvent) {
    e.OutputStart? || e.OutputDelta? || e.OutputEnd?
  }

  /** What each streamed answer lets be revealed begins every later one, and nothing of the part has
      ended yet. The answers themselves need not extend each other: their last word is withheld. */
  predicate Chain(events: seq<PartEvent>) {
    && (forall i, j :: 0 <= i < j < |events| && IsOutput(events[i]) && IsOutput(events[j]) ==>
          RevealableWords(events[i].answer) <= events[j].answer)
    && (forall i :: 0 <= i < |events| ==> !events[i].OutputEnd?)
  }

  lemma ReactKeepsAnswers(v: View, e: PartEvent)
    requires !IsOutput(e)
    ensures AnswerEvents(React(v, e).sent) == AnswerEvents(v.sent)
    ensures React(v, e).started == v.started && React(v, e).lastSnapshot == v.lastSnapshot
  {
    match e
    case ThinkingProgress => AnnounceKeepsAnswers(v, THINKING);
    case ToolCalled(tool) =>
      var b := ToolActivity("started", tool, ToolLabel(tool));
      AnswerEventsAppend(v.sent, b);
      AnnounceKeepsAnswers(v.(sent := v.sent + [b]), Activity("tool", ToolLabel(tool), Some(tool)));
    case ToolReturned(tool) =>
      var b := ToolActivity("completed", tool, "Reviewing");
      AnswerEventsAppend(v.sent, b);
      AnnounceKeepsAnswers(v.(sent := v.sent + [b]), Activity("thinking", "Reviewing", Some(tool)));
    case OtherPart =>
  }

  /** The last snapshot is what some streamed answer let be revealed. */
  lemma {:induction false} LastSnapshotIsRevealed(events: seq<PartEvent>)
    requires forall i :: 0 <= i < |events| ==> !events[i].OutputEnd?
    ensures var last := ReactAll(INITIAL, events).lastSnapshot;
            last == [] || exists e :: e in events && IsOutput(e) && last == RevealableWords(e.answer)
  {
    if events != [] {
      var n := |events| - 1;
      var v := ReactAll(INITIAL, events[..n]);
      LastSnapshotIsRevealed(events[..n]);
      if IsOutput(events[n]) { assert events[n] in events; } else { ReactKeepsAnswers(v, events[n]); }
    }
  }

  lemma LastSnapshotBegins(events: seq<PartEvent>, answer: Text)
    requires forall i :: 0 <= i < |events| ==> !events[i].OutputEnd?
    requires forall i :: 0 <= i < |events| && IsOutput(events[i]) ==> RevealableWords(events[i].answer) <= answer
    ensures ReactAll(INITIAL, events).lastSnapshot <= answer
  {
    LastSnapshotIsRevealed(events);
  }

  /** The event streams an answer of the output part, which has begun. */
  predicate Streams(events: seq<PartEvent>, k: nat)
    requires k < |events|
  {
    && (events[k].OutputStart? || (events[k].OutputDelta? && exists j :: 0 <= j < k && events[j].OutputStart?))
    && (events[k].action == "answer" || events[k].action == "urgent_safety")
  }

  /** No whole word of the text lies 24 characters or more beyond the first `n`. */
  predicate KeptUp(text: Text, n: nat) {
    forall i :: 0 <= i < |text| && (text[i] == 0x20 || text[i] == 0xA || text[i] == 0x9) ==> i + 1 < n + 24
  }

  lemma ReactBegins(v: View, e: PartEvent)
    ensures React(v, e).hasPart <==> v.hasPart || e.OutputStart? || e.OutputEnd?
  {}

  lemma {:induction false} PartHasBegun(events: seq<PartEvent>)
    ensures ReactAll(INITIAL, events).hasPart <==>
            exists j :: 0 <= j < |events| && (events[j].OutputStart? || events[j].OutputEnd?)
  {
    if events != [] {
      var most, e := events[..|events| - 1], events[|events| - 1];
      PartHasBegun(most);
      ReactBegins(ReactAll(INITIAL, most), e);
      if j :| 0 <= j < |most| && (most[j].OutputStart? || most[j].OutputEnd?) { assert events[j] == most[j]; }
    }
  }

  lemma ShowKeepsUp(v: View, answer: Text, after: View)
    requires after == Show(v, answer, false)
    ensures KeptUp(answer, |after.lastSnapshot|)
    ensures v.lastSnapshot <= answer ==> |v.lastSnapshot| <= |after.lastSnapshot|
  {
    RevealableIsLongestBreak(answer);
    if v.lastSnapshot <= answer && Due(v, RevealableWords(answer), false) {
      DueIsLonger(v, RevealableWords(answer), answer, false);
    }
  }

  /** Whatever came before, once the part has begun: right after a start or a delta of an answer the last
      snapshot is less than 24 characters behind its last whole word, and right after the part's end it is the
      full answer. */
  lemma AnswerIsShown(events: seq<PartEvent>, e: PartEvent)
    requires e.OutputStart? || e.OutputEnd?
             || (e.OutputDelta? && exists j :: 0 <= j < |events| && (events[j].OutputStart? || events[j].OutputEnd?))
    requires e.action == "answer" || e.action == "urgent_safety"
    ensures var last := ReactAll(INITIAL, events + [e]).lastSnapshot;
            if e.OutputEnd? then e.answer == [] || last == e.answer else KeptUp(e.answer, |last|)
  {
    assert (events + [e])[..|events|] == events;
    PartHasBegun(events);
    var v := ReactAll(INITIAL, events);
    var w := if e.OutputStart? then Announce(v.(hasPart := true), COMPOSING) else v;
    ShowKeepsUp(w, e.answer, Show(w, e.answer, false));
  }

  lemma ReactKeepsUp(v: View, e: PartEvent, after: View)
    requires !e.OutputEnd? && (IsOutput(e) ==> v.lastSnapshot <= e.answer) && after == React(v, e)
    ensures |v.lastSnapshot| <= |after.lastSnapshot|
    ensures (e.OutputStart? || (e.OutputDelta? && v.hasPart))
            && (e.action == "answer" || e.action == "urgent_safety") ==>
              KeptUp(e.answer, |after.lastSnapshot|)
  {
    if IsOutput(e) {
      var w := if e.OutputStart? then Announce(v.(hasPart := true), COMPOSING) else v;
      ShowKeepsUp(w, e.answer, Show(w, e.answer, false));
    } else {
      ReactKeepsAnswers(v, e);
    }
  }

  lemma StreamsBefore(events: seq<PartEvent>, most: seq<PartEvent>, k: nat)
    requires most <= events && k < |most| && Streams(events, k)
    ensures Streams(most, k)
  {
    assert most[k] == events[k];
    if events[k].OutputDelta? {
      var j :| 0 <= j < k && events[j].OutputStart?;
      assert most[j].OutputStart?;
    }
  }

  lemma LastStreams(most: seq<PartEvent>, e: PartEvent)
    requires Streams(most + [e], |most|)
    ensures e.OutputStart? || (e.OutputDelta? && ReactAll(INITIAL, most).hasPart)
  {
    PartHasBegun(most);
    if e.OutputDelta? {
      var j :| 0 <= j < |most| && (most + [e])[j].OutputStart?;
      assert most[j].OutputStart?;
    }
  }

  /** The stream keeps up with the model: whatever answer has been streamed so far, the last snapshot is less
      than 24 characters behind its last whole word. */
  lemma {:induction false} StreamKeepsUp(events: seq<PartEvent>, k: nat)
    requires Chain(events) && k < |events| && Streams(events, k)
    ensures KeptUp(events[k].answer, |ReactAll(INITIAL, events).lastSnapshot|)
  {
    var most, e := events[..|events| - 1], events[|events| - 1];
    if IsOutput(e) { LastSnapshotBegins(most, e.answer); }
    ReactKeepsUp(ReactAll(INITIAL, most), e, ReactAll(INITIAL, events));
    if k < |most| {
      StreamsBefore(events, most, k);
      StreamKeepsUp(most, k);
    } else {
      assert most + [e] == events;
      LastStreams(most, e);
    }
  }

  /** While a part streams, the snapshots so far are a strictly growing chain of whole words, each at
      least 24 characters longer than the one before, after a single start; and the last of them is never
      24 characters or more behind a whole word of an answer streamed. */
  lemma {:induction false} StreamingSnapshots(events: seq<PartEvent>) returns (texts: seq<Text>)
    requires Chain(events)
    ensures Partial(ReactAll(INITIAL, events), texts)
    ensures forall k :: 0 <= k < |events| && Streams(events, k) ==>
              KeptUp(events[k].answer, if texts == [] then 0 else |texts[|texts| - 1]|)
  {
    forall k | 0 <= k < |events| && Streams(events, k)
      ensures KeptUp(events[k].answer, |ReactAll(INITIAL, events).lastSnapshot|)
    {
      StreamKeepsUp(events, k);
    }
    if events == [] {
      texts := [];
    } else {
      var n := |events| - 1;
      var v := ReactAll(INITIAL, events[..n]);
      texts := StreamingSnapshots(events[..n]);
      if IsOutput(events[n]) {
        LastSnapshotBegins(events[..n], events[n].answer);
        texts := OutputKeepsPartial(v, texts, events[n], React(v, events[n]));
      } else {
        ReactKeepsAnswers(v, events[n]);
      }
    }
  }

  lemma BreaksAppend(texts: seq<Text>, t: Text)
    requires (forall u :: u in texts ==> EndsInBreak(u)) && EndsInBreak(t)
    ensures forall u :: u in texts + [t] ==> EndsInBreak(u)
  {}

  lemma ShowKeepsPartial(v: View, texts: seq<Text>, answer: Text, after: View) returns (more: seq<Text>)
    requires Partial(v, texts) && v.lastSnapshot <= answer && after == Show(v, answer, false)
    ensures Partial(after, more) && after.lastSnapshot <= answer
  {
    var snapshot := RevealableWords(answer);
    RevealableIsLongestBreak(answer);
    if Due(v, snapshot, false) {
      more := texts + [snapshot];
      BreaksAppend(texts, snapshot);
      assert SNAPSHOT_MIN_CHARS * |more| <= |snapshot|;
    } else {
      more := texts;
    }
    ShowExtends(v, texts, answer, false, after, more);
  }

  lemma AnnounceKeepsPartial(v: View, texts: seq<Text>, a: Activity, after: View)
    requires Partial(v, texts) && after == Announce(v.(hasPart := true), a)
    ensures Partial(after, texts) && after.lastSnapshot == v.lastSnapshot
  {
    AnnounceKeepsAnswers(v.(hasPart := true), a);
  }

  lemma OutputKeepsPartial(v: View, texts: seq<Text>, e: PartEvent, after: View) returns (more: seq<Text>)
    requires Partial(v, texts) && (e.OutputStart? || e.OutputDelta?) && v.lastSnapshot <= e.answer
    requires after == React(v, e)
    ensures Partial(after, more) && after.lastSnapshot <= e.answer
  {
    var w := if e.OutputStart? then Announce(v.(hasPart := true), COMPOSING) else v;
    if e.OutputStart? { AnnounceKeepsPartial(v, texts, COMPOSING, w); }
    if w.hasPart && Revealing(e.action) {
      more := ShowKeepsPartial(w, texts, e.answer, after);
    } else {
      more := texts;
    }
  }

  /** When the part ends with an eligible action, the snapshots are a strictly growing prefix chain
      that starts once, ends with the full answer, ends in a break everywhere but last, and counts
      at most length/24 + 1. */
  lemma PartSnapshots(events: seq<PartEvent>, end: PartEvent) returns (texts: seq<Text>)
    requires Chain(events) && end.OutputEnd? && (end.action == "answer" || end.action == "urgent_safety")
    requires forall i :: 0 <= i < |events| && IsOutput(events[i]) ==> RevealableWords(events[i].answer) <= end.answer
    ensures Shows(ReactAll(INITIAL, events + [end]), texts)
    ensures end.answer != [] ==> texts != [] && texts[|texts| - 1] == end.answer
    ensures forall i :: 0 <= i < |texts| - 1 ==> EndsInBreak(texts[i])
    ensures |texts| <= |end.answer| / SNAPSHOT_MIN_CHARS + 1
  {
    texts := StreamingSnapshots(events);
    LastSnapshotBegins(events, end.answer);
    assert (events + [end])[..|events|] == events;
    texts := EndShowsAll(ReactAll(INITIAL, events), texts, end, ReactAll(INITIAL, events + [end]));
  }

  lemma EndShowsAll(v: View, texts: seq<Text>, end: PartEvent, after: View) returns (more: seq<Text>)
    requires Partial(v, texts) && end.OutputEnd? && Revealing(end.action) && v.lastSnapshot <= end.answer
             && after == React(v, end)
    ensures Shows(after, more)
    ensures end.answer != [] ==> more != [] && more[|more| - 1] == end.answer
    ensures forall i :: 0 <= i < |more| - 1 ==> EndsInBreak(more[i])
    ensures |more| <= |end.answer| / SNAPSHOT_MIN_CHARS + 1
  {
    more := if Due(v, end.answer, true) then texts + [end.answer] else texts;
    ShowExtends(v.(hasPart := true), texts, end.answer, true, after, more);
  }

  /** Of an output with any other action nothing is shown. */
  lemma {:induction false} OthersShowNothing(events: seq<PartEvent>)
    requires forall i :: 0 <= i < |events| && IsOutput(events[i]) ==> events[i].action !in {"answer", "urgent_safety"}
    ensures AnswerEvents(ReactAll(INITIAL, events).sent) == []
  {
    if events != [] {
      var n := |events| - 1;
      var v := ReactAll(INITIAL, events[..n]);
      OthersShowNothing(events[..n]);
      if !IsOutput(events[n]) {
        ReactKeepsAnswers(v, events[n]);
      } else if events[n].OutputStart? {
        AnnounceKeepsAnswers(v.(hasPart := true), COMPOSING);
      }
    }
  }

  // ---------------------------------------------------------------- activities

  /** The announcements in a list, in order. */
  function Announcements(sent: seq<Body>): (bodies: seq<Body>) {
    if sent == [] then []
    else
      var b := sent[|sent| - 1];
      Announcements(sent[..|sent| - 1]) + (if b.StatusChanged? then [b] else [])
  }

  predicate NoRepeats(bodies: seq<Body>) {
    forall i :: 1 <= i < |bodies| ==> bodies[i] != bodies[i - 1]
  }

  /** The activities the handler ever sets: the kind and caption decide whether a tool is named. */
  predicate Known(a: Activity) {
    || a == THINKING || a == COMPOSING
    || (a.tool.Some?
        && ((a.kind == "tool" && a.caption == ToolLabel(a.tool.value))
        || (a.kind == "thinking" && a.caption == "Reviewing")))
  }

  lemma AnnouncementsDiffer(a: Activity, b: Activity)
    requires Known(a) && Known(b) && Announcement(a) == Announcement(b)
    ensures a == b
  {
    assert "Reviewing"[0] == 'R' && "Thinking"[0] == 'T';
    assert "tool"[1] == 'o' && "thinking"[1] == 'h' && "composing"[0] == 'c';
  }

  /** The initial announcement followed by the handler's. */
  function Trail(sent: seq<Body>): (t: seq<Body>)
    ensures t != []
  {
    [Announcement(THINKING)] + Announcements(sent)
  }

  predicate Announced(v: View) {
    var t := Trail(v.sent);
    Known(v.lastActivity) && NoRepeats(t) && t[|t| - 1] == Announcement(v.lastActivity)
  }

  lemma TrailAppend(sent: seq<Body>, b: Body)
    ensures Trail(sent + [b]) == Trail(sent) + (if b.StatusChanged? then [b] else [])
  {
    AnnouncementsAppend(sent, b);
    Regroup([Announcement(THINKING)], Announcements(sent), if b.StatusChanged? then [b] else []);
  }

  lemma Regroup(a: seq<Body>, b: seq<Body>, c: seq<Body>)
    ensures a + (b + c) == (a + b) + c
  {}

  lemma AnnouncementsAppend(sent: seq<Body>, b: Body)
    ensures Announcements(sent + [b]) == Announcements(sent) + (if b.StatusChanged? then [b] else [])
  {
    assert (sent + [b])[..|sent|] == sent;
  }

  lemma AnnounceKeeps(v: View, a: Activity)
    requires Announced(v) && Known(a)
    ensures Announced(Announce(v, a))
  {
    TrailAppend(v.sent, Announcement(a));
    if a != v.lastActivity
        && Announcement(a) == Announcement(v.lastActivity) { AnnouncementsDiffer(a, v.lastActivity); }
  }

  lemma AnswersLeaveTrail(sent: seq<Body>, started: bool, snapshot: Text)
    ensures Trail(sent + (if started then [] else [AnswerStarted]) + [AnswerSnapshot(snapshot)]) == Trail(sent)
  {
    var before := sent + (if started then [] else [AnswerStarted]);
    if started { assert before == sent; }
    TrailAppend(sent, AnswerStarted);
    TrailAppend(before, AnswerSnapshot(snapshot));
    assert Trail(before) == Trail(sent);
  }

  lemma SameTrail(v: View, after: View)
    requires Announced(v) && after.lastActivity == v.lastActivity && Trail(after.sent) == Trail(v.sent)
    ensures Announced(after)
  {}

  lemma ShowKeepsAnnounced(v: View, answer: Text, final: bool, after: View)
    requires Announced(v) && after == Show(v, answer, final)
    ensures Announced(after)
  {
    var snapshot := if final then answer else RevealableWords(answer);
    AnswersLeaveTrail(v.sent, v.started, snapshot);
    SameTrail(v, after);
  }

  lemma LoggedKeepsAnnounced(v: View, b: Body, after: View)
    requires Announced(v) && !b.StatusChanged? && after == v.(sent := v.sent + [b])
    ensures Announced(after)
  {
    TrailAppend(v.sent, b);
    SameTrail(v, after);
  }

  lemma ToolKeepsAnnounced(v: View, b: Body, a: Activity, after: View)
    requires Announced(v) && !b.StatusChanged? && Known(a) && after == Announce(v.(sent := v.sent + [b]), a)
    ensures Announced(after)
  {
    LoggedKeepsAnnounced(v, b, v.(sent := v.sent + [b]));
    AnnounceKeeps(v.(sent := v.sent + [b]), a);
  }

  lemma PartKeepsAnnounced(v: View, after: View)
    requires Announced(v) && after == v.(hasPart := true)
    ensures Announced(after)
  {}

  lemma OutputKeepsAnnounced(v: View, e: PartEvent, after: View)
    requires Announced(v) && IsOutput(e) && after == React(v, e)
    ensures Announced(after)
  {
    var w := v.(hasPart := true);
    PartKeepsAnnounced(v, w);
    match e
    case OutputStart(_, answer) =>
      AnnounceKeeps(w, COMPOSING);
      ShowKeepsAnnounced(Announce(w, COMPOSING), answer, false, Show(Announce(w, COMPOSING), answer, false));
    case OutputDelta(_, answer) => ShowKeepsAnnounced(v, answer, false, Show(v, answer, false));
    case OutputEnd(_, answer) => ShowKeepsAnnounced(w, answer, true, Show(w, answer, true));
  }

  lemma ReactKeepsAnnounced(v: View, e: PartEvent, after: View)
    requires Announced(v) && after == React(v, e)
    ensures Announced(after)
  {
    match e
    case ThinkingProgress => AnnounceKeeps(v, THINKING);
    case ToolCalled(tool) =>
      ToolKeepsAnnounced(v, ToolActivity("started", tool, ToolLabel(tool)),
                         Activity("tool", ToolLabel(tool), Some(tool)), after);
    case ToolReturned(tool) =>
      ToolKeepsAnnounced(v, ToolActivity("completed", tool, "Reviewing"), Activity("thinking", "Reviewing", Some(tool)),
                         after);
    case OtherPart =>
    case _ => OutputKeepsAnnounced(v, e, after);
  }

  /** The activity an event stands for, if any. */
  function ActivityOf(e: PartEvent): (b: Option<Body>) {
    match e
    case ThinkingProgress => Some(StatusChanged("thinking", "Thinking", None))
    case OutputStart(_, _) => Some(StatusChanged("composing", "Composing", None))
    case ToolCalled(tool) => Some(StatusChanged("tool", ToolLabel(tool), if tool == "" then None else Some(tool)))
    case ToolReturned(tool) => Some(StatusChanged("thinking", "Reviewing", if tool == "" then None else Some(tool)))
    case _ => None
  }

  lemma ReactAnnounces(v: View, e: PartEvent, after: View)
    requires Announced(v) && after == React(v, e)
    ensures Announcement(after.lastActivity) ==
            if ActivityOf(e).Some? then ActivityOf(e).value else Announcement(v.lastActivity)
  {}

  /** The last activity announced is always that of the last event that stands for one. */
  lemma ActivityFollows(events: seq<PartEvent>, e: PartEvent)
    ensures var before, after := Trail(ReactAll(INITIAL, events).sent), Trail(ReactAll(INITIAL, events + [e]).sent);
            after[|after| - 1] == if ActivityOf(e).Some? then ActivityOf(e).value else before[|before| - 1]
  {
    assert (events + [e])[..|events|] == events;
    NoActivityTwiceRunning(events);
    NoActivityTwiceRunning(events + [e]);
    ReactAnnounces(ReactAll(INITIAL, events), e, ReactAll(INITIAL, events + [e]));
  }

  /** The tool events of a list, in order. */
  function ToolEvents(sent: seq<Body>): (bodies: seq<Body>) {
    if sent == [] then []
    else
      var b := sent[|sent| - 1];
      ToolEvents(sent[..|sent| - 1]) + (if b.ToolActivity? then [b] else [])
  }

  /** A start for a call of a tool and a completion for its return. */
  function ToolUsed(e: PartEvent): (bodies: seq<Body>) {
    match e
    case ToolCalled(tool) => [ToolActivity("started", tool, ToolLabel(tool))]
    case ToolReturned(tool) => [ToolActivity("completed", tool, "Reviewing")]
    case _ => []
  }

  function ToolsUsed(events: seq<PartEvent>): (bodies: seq<Body>) {
    if events == [] then []
    else
      ToolsUsed(events[..|events| - 1]) + ToolUsed(events[|events| - 1])
  }

  lemma ToolEventsAppend(sent: seq<Body>, b: Body)
    ensures ToolEvents(sent + [b]) == ToolEvents(sent) + (if b.ToolActivity? then [b] else [])
  {
    assert (sent + [b])[..|sent|] == sent;
  }

  lemma ShowKeepsTools(v: View, answer: Text, final: bool)
    ensures ToolEvents(Show(v, answer, final).sent) == ToolEvents(v.sent)
  {
    var snapshot := if final then answer else RevealableWords(answer);
    var before := v.sent + (if v.started then [] else [AnswerStarted]);
    if v.started { assert before == v.sent; }
    ToolEventsAppend(v.sent, AnswerStarted);
    ToolEventsAppend(before, AnswerSnapshot(snapshot));
  }

  lemma AnnounceKeepsTools(v: View, a: Activity)
    ensures ToolEvents(Announce(v, a).sent) == ToolEvents(v.sent)
  {
    ToolEventsAppend(v.sent, Announcement(a));
  }

  lemma ToolIsLogged(v: View, b: Body, a: Activity, after: View)
    requires b.ToolActivity? && after == Announce(v.(sent := v.sent + [b]), a)
    ensures ToolEvents(after.sent) == ToolEvents(v.sent) + [b]
  {
    ToolEventsAppend(v.sent, b);
    AnnounceKeepsTools(v.(sent := v.sent + [b]), a);
  }

  lemma OutputKeepsTools(v: View, e: PartEvent, after: View)
    requires IsOutput(e) && after == React(v, e)
    ensures ToolEvents(after.sent) == ToolEvents(v.sent)
  {
    var w := v.(hasPart := true);
    match e
    case OutputStart(_, answer) =>
      AnnounceKeepsTools(w, COMPOSING);
      ShowKeepsTools(Announce(w, COMPOSING), answer, false);
    case OutputDelta(_, answer) => ShowKeepsTools(v, answer, false);
    case OutputEnd(_, answer) => ShowKeepsTools(w, answer, true);
  }

  lemma ReactLogsTools(v: View, e: PartEvent, after: View)
    requires after == React(v, e)
    ensures ToolEvents(after.sent) == ToolEvents(v.sent) + ToolUsed(e)
  {
    match e
    case ThinkingProgress => AnnounceKeepsTools(v, THINKING);
    case ToolCalled(tool) =>
      ToolIsLogged(v, ToolActivity("started", tool, ToolLabel(tool)), Activity("tool", ToolLabel(tool), Some(tool)),
                   after);
    case ToolReturned(tool) =>
      ToolIsLogged(v, ToolActivity("completed", tool, "Reviewing"), Activity("thinking", "Reviewing", Some(tool)),
                   after);
    case OtherPart =>
    case _ => OutputKeepsTools(v, e, after);
  }

  /** Every call and every return of a tool is passed on, in order, and no other tool event is. */
  lemma {:induction false} ToolsAreLogged(events: seq<PartEvent>)
    ensures ToolEvents(ReactAll(INITIAL, events).sent) == ToolsUsed(events)
  {
    if events != [] {
      var n := |events| - 1;
      ToolsAreLogged(events[..n]);
      ReactLogsTools(ReactAll(INITIAL, events[..n]), events[n], ReactAll(INITIAL, events));
    }
  }

  /** Whatever the part events, no activity is announced twice running, counting the initial one. */
  lemma {:induction false} NoActivityTwiceRunning(events: seq<PartEvent>)
    ensures Announced(ReactAll(INITIAL, events))
    ensures NoRepeats(Trail(ReactAll(INITIAL, events).sent))
  {
    if events != [] {
      NoActivityTwiceRunning(events[..|events| - 1]);
      ReactKeepsAnnounced(ReactAll(INITIAL, events[..|events| - 1]), events[|events| - 1], ReactAll(INITIAL, events));
    }
  }
}
