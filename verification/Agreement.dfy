/** What the client shows for a finished run against what the server stores for it. */
module Agreement {
  import opened Records
  import opened Transactions
  import opened Protocol
  import opened RunInvariants
  import opened Stream
  import opened Client
  import opened Replay
  import opened Screen
  import Emitter

  /** The text the client shows for a message, after folding the events of its run. */
  function Shown(c: Chat, m: MessageId, events: seq<Event>): (text: Option<Text>) {
    var response := Response(Fold(c, AssistantId(m), events).messages, AssistantId(m));
    if response.None? then None else Some(response.value.content)
  }

  function Stored(db: Db, m: MessageId): (text: Option<Text>) {
    if AssistantId(m) in db.messages then Some(db.messages[AssistantId(m)].content) else None
  }

  /** A chat that has not yet heard of the run's response. */
  predicate Unanswered(c: Chat, m: MessageId) {
    Response(c.messages, AssistantId(m)).None?
  }

  lemma UnansweredIsFit(c: Chat, m: MessageId)
    requires Unanswered(c, m)
    ensures AtMostOne(c.messages, AssistantId(m))
  {}

  lemma ShownIsEffect(c: Chat, m: MessageId, events: seq<Event>)
    requires Unanswered(c, m)
    ensures Shown(c, m, events) == TextOf(EffectAll(None, AssistantId(m), events))
  {
    UnansweredIsFit(c, m);
    FoldParts(c, AssistantId(m), events);
  }

  // ---------------------------------------------------------------- the run's message over a log

  predicate InProgress(log: seq<Event>) {
    forall i :: 0 <= i < |log| ==> log[i].body.RunAccepted? || ProgressBody(log[i].body)
  }

  predicate Opens(b: Body) {
    b.AnswerStarted? || b.AnswerSnapshot?
  }

  /** The response exists once an answer event has been sent, and shows the last snapshot. */
  lemma {:induction false} ShowsLastSnapshot(id: MessageId, log: seq<Event>)
    requires InProgress(log)
    ensures var x := EffectAll(None, id, log);
            && (x.Some? ==> x.value.content == SnapshotText(log))
            && (x.None? <==> forall i :: 0 <= i < |log| ==> !Opens(log[i].body))
            && (LatestSnapshot(log).Some? ==> x.Some?)
  {
    if log != [] {
      var most := log[..|log| - 1];
      ShowsLastSnapshot(id, most);
      assert forall i :: 0 <= i < |most| ==> most[i] == log[i];
    }
  }

  lemma {:induction false} EffectAppend(x: Option<ChatMessage>, id: MessageId, a: seq<Event>, b: seq<Event>)
    ensures EffectAll(x, id, a + b) == EffectAll(EffectAll(x, id, a), id, b)
  {
    if b == [] {
      assert a + b == a;
    } else {
      var n := |b| - 1;
      assert (a + b)[..|a + b| - 1] == a + b[..n];
      EffectAppend(x, id, a, b[..n]);
    }
  }

  lemma EffectLast(x: Option<ChatMessage>, id: MessageId, events: seq<Event>, e: Event)
    ensures EffectAll(x, id, events + [e]) == Effect(EffectAll(x, id, events), id, e)
  {
    assert (events + [e])[..|events|] == events;
  }

  lemma NumberedLast(first: nat, bodies: seq<Body>, b: Body, now: Time)
    ensures NumberedEvents(first, bodies + [b], now) ==
            NumberedEvents(first, bodies, now) + [Event(first + |bodies|, b, now)]
  {}

  lemma TitlesDoNothing(x: Option<ChatMessage>, id: MessageId, first: nat, title: Option<Text>, now: Time)
    ensures EffectAll(x, id, NumberedEvents(first, TitleEvents(title), now)) == x
  {
    if title.Some? && title.value != [] {
      var e := Event(first, ConversationTitled(title.value), now);
      assert NumberedEvents(first, TitleEvents(title), now) == [] + [e];
      EffectLast(x, id, [], e);
    }
  }

  /** What the closing events of a turn leave of the response. */
  function ClosedBy(turn: Turn, x: Option<ChatMessage>, id: MessageId, now: Time): (message: Option<ChatMessage>) {
    match turn
    case ArchiveTurn(_) => Some(Closed(id, ARCHIVES_COPY, now, Complete))
    case AnswerTurn(_, _, _) => if x.None? then None else Some(x.value.(state := Complete))
    case TerminateTurn => x
  }

  lemma EndsCompleted(x: Option<ChatMessage>, id: MessageId, first: nat, bodies: seq<Body>, now: Time)
    ensures EffectAll(x, id, NumberedEvents(first, bodies + [RunCompleted], now)) ==
            var y := EffectAll(x, id, NumberedEvents(first, bodies, now));
            if y.None? then None else Some(y.value.(state := Complete))
  {
    NumberedLast(first, bodies, RunCompleted, now);
    EffectLast(x, id, NumberedEvents(first, bodies, now), Event(first + |bodies|, RunCompleted, now));
  }

  lemma NumberedFirst(first: nat, b: Body, bodies: seq<Body>, now: Time)
    ensures NumberedEvents(first, [b] + bodies, now) == [Event(first, b, now)] + NumberedEvents(first + 1, bodies, now)
  {}

  lemma EffectOne(x: Option<ChatMessage>, id: MessageId, e: Event)
    ensures EffectAll(x, id, [e]) == Effect(x, id, e)
  {
    EffectLast(x, id, [], e);
    assert [] + [e] == [e];
  }

  lemma ArchiveOpens(x: Option<ChatMessage>, id: MessageId, first: nat, title: Option<Text>, now: Time)
    ensures EffectAll(x, id, NumberedEvents(first, [ArchiveUnavailable(ARCHIVES_COPY)] + TitleEvents(title), now)) ==
            Some(Closed(id, ARCHIVES_COPY, now, Complete))
  {
    var e := Event(first, ArchiveUnavailable(ARCHIVES_COPY), now);
    NumberedFirst(first, e.body, TitleEvents(title), now);
    EffectAppend(x, id, [e], NumberedEvents(first + 1, TitleEvents(title), now));
    EffectOne(x, id, e);
    TitlesDoNothing(Some(Closed(id, ARCHIVES_COPY, now, Complete)), id, first + 1, title, now);
  }

  lemma TurnEffect(x: Option<ChatMessage>, id: MessageId, first: nat, turn: Turn, now: Time)
    ensures EffectAll(x, id, NumberedEvents(first, TurnEvents(turn), now)) == ClosedBy(turn, x, id, now)
  {
    match turn {
      case TerminateTurn => EndDoesNothing(x, id, first, now);
      case ArchiveTurn(title) =>
        ArchiveOpens(x, id, first, title, now);
        EndsCompleted(x, id, first, [ArchiveUnavailable(ARCHIVES_COPY)] + TitleEvents(title), now);
      case AnswerTurn(_, title, _) => TitledEnd(x, id, first, title, now);
    }
  }

  lemma EndDoesNothing(x: Option<ChatMessage>, id: MessageId, first: nat, now: Time)
    ensures EffectAll(x, id, NumberedEvents(first, [ConversationTerminated], now)) == x
  {
    var e := Event(first, ConversationTerminated, now);
    assert NumberedEvents(first, [ConversationTerminated], now) == [] + [e];
    EffectLast(x, id, [], e);
  }

  lemma TitledEnd(x: Option<ChatMessage>, id: MessageId, first: nat, title: Option<Text>, now: Time)
    ensures EffectAll(x, id, NumberedEvents(first, TitleEvents(title) + [RunCompleted], now)) ==
            if x.None? then None else Some(x.value.(state := Complete))
  {
    TitlesDoNothing(x, id, first, title, now);
    EndsCompleted(x, id, first, TitleEvents(title), now);
  }

  // ---------------------------------------------------------------- the stream stops where the log is complete

  lemma StopsAtTheEnd(log: seq<Event>, closing: seq<Event>, later: seq<Event>)
    requires forall i :: 0 <= i < |log| ==> !TerminalBody(log[i].body)
    requires closing != [] && TerminalBody(closing[|closing| - 1].body)
    requires forall i :: 0 <= i < |closing| - 1 ==> !TerminalBody(closing[i].body)
    ensures UpToTerminal(log + closing + later) == log + closing
  {
    var events := log + closing + later;
    var k := |log| + |closing| - 1;
    assert events[k] == closing[|closing| - 1];
    assert forall i :: |log| <= i < k ==> events[i] == closing[i - |log|];
    UpToTerminalOfPrefix(events, k);
    assert events[k..][0] == events[k];
    assert events[..k] + [events[k]] == log + closing;
  }

  lemma ClosingEvents(first: nat, turn: Turn, now: Time)
    ensures var closing := NumberedEvents(first, TurnEvents(turn), now);
            && closing != [] && TerminalBody(closing[|closing| - 1].body)
            && forall i :: 0 <= i < |closing| - 1 ==> !TerminalBody(closing[i].body)
  {
    TurnEventsClose(turn);
  }

  lemma QuietWhileInProgress(log: seq<Event>)
    requires InProgress(log)
    ensures forall i :: 0 <= i < |log| ==> !TerminalBody(log[i].body)
  {}

  /** The events a client receives of a run that was closed by `turn`, however many follow. */
  lemma ReceivedOfTurn(log: seq<Event>, first: nat, turn: Turn, now: Time, closed: seq<Event>, later: seq<Event>)
    requires InProgress(log) && closed == log + NumberedEvents(first, TurnEvents(turn), now)
    ensures UpToTerminal(closed + later) == closed
  {
    ClosingEvents(first, turn, now);
    QuietWhileInProgress(log);
    StopsAtTheEnd(log, NumberedEvents(first, TurnEvents(turn), now), later);
  }

  lemma ShownOfTurn(c: Chat, m: MessageId, log: seq<Event>, first: nat, turn: Turn, now: Time, closed: seq<Event>)
    requires Unanswered(c, m) && closed == log + NumberedEvents(first, TurnEvents(turn), now)
    ensures Shown(c, m, closed) == TextOf(ClosedBy(turn, EffectAll(None, AssistantId(m), log), AssistantId(m), now))
  {
    var closing := NumberedEvents(first, TurnEvents(turn), now);
    ShownIsEffect(c, m, closed);
    EffectAppend(None, AssistantId(m), log, closing);
    TurnEffect(EffectAll(None, AssistantId(m), log), AssistantId(m), first, turn, now);
  }

  // ---------------------------------------------------------------- completed runs

  lemma StoredByTurn(db: Db, r: RunId, turn: Turn, now: Time)
    requires Unfinished(db, r) && OwnsConversation(db, db.runs[r]) && ValidTurn(turn)
    ensures Stored(ConcludeRun(db, r, turn, now), db.runs[r].message) ==
            if turn.TerminateTurn? then Stored(db, db.runs[r].message) else TurnAnswer(turn)
  {
    var row := FinishedRow(db.runs[r], TurnStatus(turn), TurnAnswer(turn), None, now);
    assert OwnsConversation(db, row) && row.message == db.runs[r].message;
    assert ConcludeRun(db, r, turn, now).messages ==
           PersistResult(db, row, TurnStatus(turn), TurnEvents(turn), TurnAnswer(turn), now).messages;
    assert |ARCHIVES_COPY| > 0;
    PersistStores(db, row, TurnStatus(turn), TurnEvents(turn), TurnAnswer(turn), now);
  }

  lemma PersistStores(db: Db, run: Run, status: Status, bodies: seq<Body>, answer: Option<Text>, now: Time)
    requires OwnsConversation(db, run)
    ensures Stored(PersistResult(db, run, status, bodies, answer, now), run.message) ==
            if answer.Some? && answer.value != [] then answer else Stored(db, run.message)
  {}

  lemma ConcludedRow(db: Db, r: RunId, turn: Turn, now: Time)
    requires Unfinished(db, r)
    ensures r in ConcludeRun(db, r, turn, now).runs
    ensures ConcludeRun(db, r, turn, now).runs[r].log ==
            db.runs[r].log + NumberedEvents(db.runs[r].lastSequence + 1, TurnEvents(turn), now)
  {}

  lemma ShownAfterTurn(db: Db, r: RunId, turn: Turn, now: Time, c: Chat, later: seq<Event>)
    requires Unfinished(db, r) && InProgress(db.runs[r].log) && Unanswered(c, db.runs[r].message)
    ensures var after := ConcludeRun(db, r, turn, now);
            var m := db.runs[r].message;
            && r in after.runs
            && Shown(c, m, UpToTerminal(after.runs[r].log + later)) ==
               TextOf(ClosedBy(turn, EffectAll(None, AssistantId(m), db.runs[r].log), AssistantId(m), now))
  {
    ConcludedRow(db, r, turn, now);
    var closed := ConcludeRun(db, r, turn, now).runs[r].log;
    ReceivedOfTurn(db.runs[r].log, db.runs[r].lastSequence + 1, turn, now, closed, later);
    ShownOfTurn(c, db.runs[r].message, db.runs[r].log, db.runs[r].lastSequence + 1, turn, now, closed);
  }

  /** A completed run that the client has followed to its end: it shows what the server stores exactly when
      the Archives were silent or the last snapshot streamed is the validated answer. Nothing appended
      later changes that. */
  lemma CompletedRunsAgree(db: Db, r: RunId, turn: Turn, now: Time, after: Db, c: Chat, later: seq<Event>)
    requires Unfinished(db, r) && InProgress(db.runs[r].log) && OwnsConversation(db, db.runs[r])
    requires ValidTurn(turn) && !turn.TerminateTurn? && after == ConcludeRun(db, r, turn, now)
    requires Unanswered(c, db.runs[r].message)
    ensures var m := db.runs[r].message;
            && r in after.runs && Stored(after, m) == TurnAnswer(turn)
            && (Shown(c, m, UpToTerminal(after.runs[r].log + later)) == Stored(after, m)
                <==> turn.ArchiveTurn? || LatestSnapshot(db.runs[r].log) == TurnAnswer(turn))
  {
    StoredByTurn(db, r, turn, now);
    ShownAfterTurn(db, r, turn, now, c, later);
    ShowsLastSnapshot(AssistantId(db.runs[r].message), db.runs[r].log);
  }

  // ---------------------------------------------------------------- from the model's stream to both ends

  function Bodies(log: seq<Event>): (bodies: seq<Body>) {
    seq(|log|, i requires 0 <= i < |log| => log[i].body)
  }

  lemma {:induction false} LatestIsLastAnswerEvent(log: seq<Event>, text: Text)
    requires var answers := Emitter.AnswerEvents(Bodies(log));
             answers != [] && answers[|answers| - 1] == AnswerSnapshot(text)
    ensures LatestSnapshot(log) == Some(text)
  {
    var most := log[..|log| - 1];
    assert Bodies(log)[..|log| - 1] == Bodies(most);
    if !Opens(log[|log| - 1].body) { LatestIsLastAnswerEvent(most, text); }
  }

  lemma HandlerSendsLast(parts: seq<Emitter.PartEvent>, end: Emitter.PartEvent)
    requires Emitter.Chain(parts) && end.OutputEnd? && Emitter.Revealing(end.action) && end.answer != []
    requires forall i :: 0 <= i < |parts| && Emitter.IsOutput(parts[i]) ==>
               Emitter.RevealableWords(parts[i].answer) <= end.answer
    ensures var answers := Emitter.AnswerEvents(Emitter.ReactAll(Emitter.INITIAL, parts + [end]).sent);
            answers != [] && answers[|answers| - 1] == AnswerSnapshot(end.answer)
  {
    var texts := Emitter.PartSnapshots(parts, end);
    var answers := Emitter.AnswerEvents(Emitter.ReactAll(Emitter.INITIAL, parts + [end]).sent);
    assert answers[|answers| - 1] == Emitter.Snapshots(texts)[|texts| - 1];
  }

  /** From the stream of one output part to both ends: when the run's answer events end with those its
      handler sent, after whatever an earlier attempt left, and the turn's answer is the part's, the
      client shows what the server stores. */
  lemma StreamedAnswerReachesBoth(db: Db, r: RunId, parts: seq<Emitter.PartEvent>, end: Emitter.PartEvent,
                                  earlier: seq<Body>, turn: Turn, now: Time, c: Chat, later: seq<Event>)
    requires Unfinished(db, r) && InProgress(db.runs[r].log) && OwnsConversation(db, db.runs[r])
    requires Unanswered(c, db.runs[r].message)
    requires Emitter.Chain(parts) && end.OutputEnd? && Emitter.Revealing(end.action)
    requires forall i :: 0 <= i < |parts| && Emitter.IsOutput(parts[i]) ==>
               Emitter.RevealableWords(parts[i].answer) <= end.answer
    requires Emitter.AnswerEvents(Bodies(db.runs[r].log)) ==
             earlier + Emitter.AnswerEvents(Emitter.ReactAll(Emitter.INITIAL, parts + [end]).sent)
    requires turn.AnswerTurn? && turn.text == end.answer && ValidTurn(turn)
    ensures var after := ConcludeRun(db, r, turn, now);
            var m := db.runs[r].message;
            && r in after.runs && Stored(after, m) == Some(end.answer)
            && Shown(c, m, UpToTerminal(after.runs[r].log + later)) == Some(end.answer)
  {
    HandlerSendsLast(parts, end);
    LatestIsLastAnswerEvent(db.runs[r].log, end.answer);
    CompletedRunsAgree(db, r, turn, now, ConcludeRun(db, r, turn, now), c, later);
  }

  // ---------------------------------------------------------------- title and termination

  lemma ReduceHeader(c: Chat, id: MessageId, e: Event)
    ensures Reduce(c, id, e).title == (if e.body.ConversationTitled? then e.body.title else c.title)
    ensures Reduce(c, id, e).terminated == (c.terminated || e.body.ConversationTerminated?)
  {}

  /** The activity on screen after an event, given the one before and whether an answer has text. */
  function ActivityAfter(b: Body, before: Option<AgentActivity>, partial: bool): (activity: Option<AgentActivity>) {
    match b
    case StatusChanged(kind, caption, tool) =>
      var known := kind == "thinking" || kind == "tool" || kind == "composing" || kind == "connecting"
                   || kind == "stopped";
      Some(AgentActivity(if known then kind else "thinking", caption, tool))
    case AnswerStarted => None
    case RunCompleted => None
    case RunFailed(_, _) => None
    case ConversationTerminated => None
    case RunCancelled(_) => if partial then None else Some(AgentActivity("stopped", "Stopped", None))
    case _ => before
  }

  predicate HasText(message: Option<ChatMessage>) {
    message.Some? && !ClientBlank(message.value.content)
  }

  lemma KnownKind(kind: string, caption: string, tool: Option<string>)
    ensures EventActivity(kind, caption, tool) ==
            AgentActivity(if || kind == "thinking" || kind == "tool" || kind == "composing" || kind == "connecting"
                             || kind == "stopped" then kind else "thinking", caption, tool)
  {
    var kinds := ["thinking", "tool", "composing", "connecting", "stopped"];
    assert kinds[0] == "thinking" && kinds[1] == "tool" && kinds[2] == "composing" && kinds[3] == "connecting"
        && kinds[4] == "stopped";
  }

  lemma SurroundActivity(c: Chat, e: Event, partial: bool, after: Chat)
    requires after == Surround(c, e, partial)
    ensures after.activity == ActivityAfter(e.body, c.activity, partial)
    ensures after.updatedAt == e.createdAt && after.pinned == c.pinned
  {
    if e.body.StatusChanged? { KnownKind(e.body.kind, e.body.caption, e.body.tool); }
  }

  lemma ReduceKeepsPin(c: Chat, id: MessageId, e: Event, partial: bool, around: Chat, after: Chat)
    requires partial == Partial(Response(c.messages, id)) && around == Surround(c, e, partial)
    requires after == Reduce(c, id, e)
    ensures after.pinned == c.pinned
  {
    SurroundActivity(c, e, partial, around);
  }

  lemma {:induction false} PinStays(c: Chat, id: MessageId, events: seq<Event>)
    ensures Fold(c, id, events).pinned == c.pinned
  {
    if events != [] {
      var most, e := Fold(c, id, events[..|events| - 1]), events[|events| - 1];
      PinStays(c, id, events[..|events| - 1]);
      var partial := Partial(Response(most.messages, id));
      ReduceKeepsPin(most, id, e, partial, Surround(most, e, partial), Fold(c, id, events));
    }
  }

  /** Of the conversation on screen the last event sets the time and, if it says so, the activity; the pin
      stays. */
  lemma ActivityOfFold(c: Chat, id: MessageId, most: seq<Event>, e: Event)
    ensures var before, after := Fold(c, id, most), Fold(c, id, most + [e]);
            && after.updatedAt == e.createdAt && after.pinned == c.pinned
            && after.activity == ActivityAfter(e.body, before.activity, HasText(Response(before.messages, id)))
  {
    assert (most + [e])[..|most|] == most;
    var before := Fold(c, id, most);
    var partial := Partial(Response(before.messages, id));
    SurroundActivity(before, e, partial, Surround(before, e, partial));
    PinStays(c, id, most);
  }

  lemma BodiesLast(events: seq<Event>)
    requires events != []
    ensures Bodies(events) == Bodies(events[..|events| - 1]) + [events[|events| - 1].body]
  {}

  lemma LastTitleOne(b: Body)
    ensures LastTitle([b]) == if b.ConversationTitled? then Some(b.title) else None
  {
    assert [b][..0] == [];
  }

  predicate Ends(bodies: seq<Body>) {
    exists i :: 0 <= i < |bodies| && bodies[i].ConversationTerminated?
  }

  lemma EndsOne(b: Body)
    ensures Ends([b]) <==> b.ConversationTerminated?
  {
    assert [b][0] == b;
  }

  /** The reducer leaves the last title sent, and the conversation ended if an end was sent. */
  lemma {:induction false} HeaderOfFold(c: Chat, id: MessageId, events: seq<Event>)
    ensures var title := LastTitle(Bodies(events));
            Fold(c, id, events).title == if title.Some? then title.value else c.title
    ensures Fold(c, id, events).terminated == (c.terminated || Ends(Bodies(events)))
  {
    if events != [] {
      var most, e := events[..|events| - 1], events[|events| - 1];
      HeaderOfFold(c, id, most);
      ReduceHeader(Fold(c, id, most), id, e);
      BodiesLast(events);
      LastTitleAppend(Bodies(most), [e.body]);
      LastTitleOne(e.body);
      EndsAppend(Bodies(most), [e.body]);
      EndsOne(e.body);
    }
  }

  lemma BodiesOfClosed(log: seq<Event>, first: nat, bodies: seq<Body>, now: Time)
    ensures Bodies(log + NumberedEvents(first, bodies, now)) == Bodies(log) + bodies
  {}

  lemma {:induction false} LastTitleAppend(a: seq<Body>, b: seq<Body>)
    ensures LastTitle(a + b) == if LastTitle(b).Some? then LastTitle(b) else LastTitle(a)
  {
    if b == [] {
      assert a + b == a;
    } else {
      assert (a + b)[..|a + b| - 1] == a + b[..|b| - 1];
      LastTitleAppend(a, b[..|b| - 1]);
    }
  }

  lemma {:induction false} NoTitleInProgress(log: seq<Event>)
    requires InProgress(log)
    ensures LastTitle(Bodies(log)).None? && !Ends(Bodies(log))
  {
    if log != [] {
      assert Bodies(log)[..|log| - 1] == Bodies(log[..|log| - 1]);
      NoTitleInProgress(log[..|log| - 1]);
    }
  }

  lemma TurnHeader(turn: Turn)
    ensures Ends(TurnEvents(turn)) <==> turn.TerminateTurn?
  {
    if turn.TerminateTurn? { assert TurnEvents(turn)[0].ConversationTerminated?; }
  }

  /** What the client makes of the title and the end of a run closed by `turn`. */
  lemma HeaderOfClosed(c: Chat, id: MessageId, log: seq<Event>, first: nat, turn: Turn, now: Time, closed: seq<Event>)
    requires InProgress(log) && closed == log + NumberedEvents(first, TurnEvents(turn), now)
    ensures var title := LastTitle(TurnEvents(turn));
            && Fold(c, id, closed).title == (if title.Some? then title.value else c.title)
            && Fold(c, id, closed).terminated == (c.terminated || turn.TerminateTurn?)
  {
    HeaderOfFold(c, id, closed);
    BodiesOfClosed(log, first, TurnEvents(turn), now);
    NoTitleInProgress(log);
    LastTitleAppend(Bodies(log), TurnEvents(turn));
    TurnHeader(turn);
    EndsAppend(Bodies(log), TurnEvents(turn));
  }

  lemma EndsAppend(a: seq<Body>, b: seq<Body>)
    ensures Ends(a + b) <==> Ends(a) || Ends(b)
  {
    forall i | 0 <= i < |b| ensures (a + b)[|a| + i] == b[i] {}
    forall i | 0 <= i < |a| ensures (a + b)[i] == a[i] {}
    if Ends(b) {
      var i :| 0 <= i < |b| && b[i].ConversationTerminated?;
      assert (a + b)[|a| + i].ConversationTerminated?;
    }
  }

  lemma ShortTitle(turn: Turn)
    requires ValidTurn(turn)
    ensures LastTitle(TurnEvents(turn)).Some? ==> |LastTitle(TurnEvents(turn)).value| <= 48
  {
    match turn {
      case TerminateTurn => LastTitleOne(ConversationTerminated);
      case ArchiveTurn(title) => LastOfTitled([ArchiveUnavailable(ARCHIVES_COPY)], title);
      case AnswerTurn(_, title, _) =>
        LastOfTitled([], title);
        assert [] + TitleEvents(title) + [RunCompleted] == TurnEvents(turn);
    }
  }

  lemma LastOfTitled(before: seq<Body>, title: Option<Text>)
    requires forall i :: 0 <= i < |before| ==> !before[i].ConversationTitled?
    ensures LastTitle(before + TitleEvents(title) + [RunCompleted]) == if title == Some([]) then None else title
  {
    LastTitleAppend(before + TitleEvents(title), [RunCompleted]);
    LastTitleOne(RunCompleted);
    LastTitleAppend(before, TitleEvents(title));
    NoTitleIn(before);
    if title.Some? && title.value != [] { LastTitleOne(ConversationTitled(title.value)); }
  }

  lemma {:induction false} NoTitleIn(bodies: seq<Body>)
    requires forall i :: 0 <= i < |bodies| ==> !bodies[i].ConversationTitled?
    ensures LastTitle(bodies).None?
  {
    if bodies != [] { NoTitleIn(bodies[..|bodies| - 1]); }
  }

  /** Title and termination agree after every valid turn: the server clips titles to 80 characters,
      but none of a valid turn is longer than 48. */
  lemma HeadersAgree(db: Db, r: RunId, turn: Turn, now: Time, c: Chat, id: MessageId, after: Db, before: Conversation)
    requires Unfinished(db, r) && InProgress(db.runs[r].log) && OwnsConversation(db, db.runs[r]) && ValidTurn(turn)
    requires after == ConcludeRun(db, r, turn, now) && before == db.conversations[db.runs[r].conversation]
    requires c.title == before.title && c.terminated == before.terminated
    ensures r in after.runs && db.runs[r].conversation in after.conversations
    ensures var stored := after.conversations[db.runs[r].conversation];
            var shown := Fold(c, id, after.runs[r].log);
            shown.terminated == stored.terminated && shown.title == stored.title
  {
    ConcludedRow(db, r, turn, now);
    ConcludedHeader(db, r, turn, now);
    HeaderOfClosed(c, id, db.runs[r].log, db.runs[r].lastSequence + 1, turn, now, after.runs[r].log);
    ShortTitle(turn);
  }

  lemma ConcludedHeader(db: Db, r: RunId, turn: Turn, now: Time)
    requires Unfinished(db, r) && OwnsConversation(db, db.runs[r])
    ensures var c := db.runs[r].conversation;
            && c in ConcludeRun(db, r, turn, now).conversations
            && ConcludeRun(db, r, turn, now).conversations[c] ==
               TouchConversation(db.conversations[c], TurnStatus(turn), TurnEvents(turn), now)
  {}

  // ---------------------------------------------------------------- cancelled runs

  lemma CancelledStores(db: Db, r: RunId, now: Time)
    requires Unfinished(db, r) && OwnsConversation(db, db.runs[r])
    ensures var text := SnapshotText(db.runs[r].log);
            var m := db.runs[r].message;
            Stored(MarkCancelled(db, r, now), m) == if text != [] then Some(text) else Stored(db, m)
  {
    var text := SnapshotText(db.runs[r].log);
    PersistStores(db, CancelledRow(db.runs[r], now), Cancelled, [], Some(text), now);
  }

  lemma CancelledLog(db: Db, r: RunId, now: Time)
    requires Unfinished(db, r)
    ensures r in MarkCancelled(db, r, now).runs
    ensures MarkCancelled(db, r, now).runs[r].log ==
            db.runs[r].log +
                NumberedEvents(db.runs[r].lastSequence + 1, [RunCancelled(SnapshotText(db.runs[r].log))], now)
  {}

  // ---------------------------------------------------------------- over whole histories

  lemma InProgressAlways(cfg: Config, accounts: map<UserId, Account>, steps: seq<Step>, s: System, r: RunId)
    requires s == Protocol.Run(cfg, Fresh(accounts), steps) && Unfinished(s.db, r)
    ensures InProgress(s.db.runs[r].log)
  {
    RunsOkAlways(cfg, accounts, steps);
    InProgressOfOk(cfg, s.db.runs[r]);
  }

  lemma InProgressOfOk(cfg: Config, run: Run)
    requires RunOk(cfg, run) && !Terminal(run.status)
    ensures InProgress(run.log)
  {}

}
