/** At-least-once delivery is harmless to the client's conversation. */
module Replay {
  import opened Records
  import opened Client

  /** What the server sends before the terminal event: anything but the legacy delta. */
  predicate Ordinary(events: seq<Event>) {
    forall i :: 0 <= i < |events| ==> !TerminalBody(events[i].body) && !events[i].body.AnswerDelta?
  }

  /** A stretch of a server-produced log: a terminal event can only be the last. */
  predicate ServerStretch(events: seq<Event>) {
    events == [] || (Ordinary(events[..|events| - 1]) && !events[|events| - 1].body.AnswerDelta?)
  }

  // ---------------------------------------------------------------- the run's message on its own

  function EffectAll(x: Option<ChatMessage>, id: MessageId, events: seq<Event>): (message: Option<ChatMessage>) {
    if events == [] then x else Effect(EffectAll(x, id, events[..|events| - 1]), id, events[|events| - 1])
  }

  /** What belongs to a run that goes on: neither the Archives' silence nor an end. */
  predicate Streamed(b: Body) {
    !b.ArchiveUnavailable? && !b.RunCompleted? && !b.RunFailed? && !b.RunCancelled?
  }

  /** How the last event leaves the record. */
  predicate EndsAs(m: ChatMessage, last: Body) {
    && (last.RunCompleted? ==> m.state == Complete)
    && (last.RunCancelled? ==> m.state == Complete && !m.animated)
    && (last.RunFailed? ==> m.state == FailedMessage && !m.animated)
    && (last.AnswerSnapshot? ==> m.animated)
  }

  /** The record on screen is the assistant's, under the response's identifier and dated by an event of the
      run; while the run goes on it is streaming, a completed or cancelled run leaves it complete, a failed one
      failed, and nothing follows. */
  lemma {:induction false} ResponseRecord(id: MessageId, events: seq<Event>)
    requires ServerStretch(events)
    ensures var x := EffectAll(None, id, events);
            x.Some? ==>
              && x.value.id == id && x.value.role == Assistant
              && (exists i :: 0 <= i < |events| && x.value.createdAt == events[i].createdAt)
              && EndsAs(x.value, events[|events| - 1].body)
              && ((forall i :: 0 <= i < |events| ==> Streamed(events[i].body)) ==> x.value.state == Streaming)
  {
    if events != [] {
      var most := events[..|events| - 1];
      assert ServerStretch(most);
      ResponseRecord(id, most);
      var x := EffectAll(None, id, most);
      if x.Some? {
        var i :| 0 <= i < |most| && x.value.createdAt == most[i].createdAt;
        assert most[i] == events[i];
      }
    }
  }

  /** Same identity and lifecycle; the text may differ. */
  predicate SameCore(a: Option<ChatMessage>, b: Option<ChatMessage>) {
    a.Some? == b.Some?
        && (a.Some? ==> a.value.(content := [], animated := false) == b.value.(content := [], animated := false))
  }

  /** Same identity and text; the lifecycle may differ. */
  predicate SameText(a: Option<ChatMessage>, b: Option<ChatMessage>) {
    a.Some? == b.Some?
        && (a.Some? ==>
        a.value.(state := Complete, animated := false) == b.value.(state := Complete, animated := false))
  }

  lemma {:induction false} CoreCarries(a: Option<ChatMessage>, b: Option<ChatMessage>, id: MessageId,
                                       events: seq<Event>)
    requires Ordinary(events) && SameCore(a, b)
    ensures SameCore(EffectAll(a, id, events), EffectAll(b, id, events))
  {
    if events != [] { CoreCarries(a, b, id, events[..|events| - 1]); }
  }

  lemma {:induction false} TextCarries(a: Option<ChatMessage>, b: Option<ChatMessage>, id: MessageId,
                                       events: seq<Event>)
    requires Ordinary(events) && SameText(a, b)
    ensures SameText(EffectAll(a, id, events), EffectAll(b, id, events))
  {
    if events != [] { TextCarries(a, b, id, events[..|events| - 1]); }
  }

  predicate SameButState(a: Option<ChatMessage>, b: Option<ChatMessage>) {
    a.Some? == b.Some? && (a.Some? ==> a.value.(state := Complete) == b.value.(state := Complete))
  }

  lemma {:induction false} AllButStateCarries(a: Option<ChatMessage>, b: Option<ChatMessage>, id: MessageId,
                                              events: seq<Event>)
    requires Ordinary(events) && SameButState(a, b)
    ensures SameButState(EffectAll(a, id, events), EffectAll(b, id, events))
  {
    if events != [] { AllButStateCarries(a, b, id, events[..|events| - 1]); }
  }

  /** Ordinary events never remove the message, and if they do not create it they do nothing. */
  lemma {:induction false} NothingCreated(x: Option<ChatMessage>, y: Option<ChatMessage>, id: MessageId,
                                          events: seq<Event>)
    requires Ordinary(events) && EffectAll(x, id, events).None?
    ensures x.None? && EffectAll(y, id, events) == y
  {
    if events != [] { NothingCreated(x, y, id, events[..|events| - 1]); }
  }

  /** Delivering ordinary events again changes nothing. */
  lemma {:induction false} OrdinaryTwice(x: Option<ChatMessage>, id: MessageId, events: seq<Event>)
    requires Ordinary(events)
    ensures EffectAll(EffectAll(x, id, events), id, events) == EffectAll(x, id, events)
  {
    if events != [] {
      var n := |events| - 1;
      var most, e := events[..n], events[n];
      var z := EffectAll(x, id, most);
      var y := EffectAll(x, id, events);
      OrdinaryTwice(x, id, most);
      if z.None? {
        NothingCreated(x, y, id, most);
      } else if !e.body.ArchiveUnavailable? {
        CoreCarries(y, z, id, most);
      }
    }
  }

  /** Blank text stays blank: redelivered to an absent message it still gives nothing to keep. */
  lemma {:induction false} BlankFromNothing(x: Option<ChatMessage>, id: MessageId, events: seq<Event>)
    requires Ordinary(events) && !Client.Partial(EffectAll(x, id, events))
    ensures !Client.Partial(EffectAll(None, id, events))
  {
    if events != [] {
      var n := |events| - 1;
      if events[n].body.AnswerStarted? {
        BlankFromNothing(x, id, events[..n]);
      } else if !events[n].body.AnswerSnapshot? && !events[n].body.ArchiveUnavailable? {
        BlankFromNothing(x, id, events[..n]);
      }
    }
  }

  /** So does delivering a stretch that ends with a terminal event. */
  lemma StretchTwice(x: Option<ChatMessage>, id: MessageId, events: seq<Event>)
    requires ServerStretch(events)
    ensures EffectAll(EffectAll(x, id, events), id, events) == EffectAll(x, id, events)
  {
    if events != [] {
      var n := |events| - 1;
      var most, e := events[..n], events[n];
      var z := EffectAll(x, id, most);
      var y := Effect(z, id, e);
      OrdinaryTwice(x, id, most);
      match e.body {
        case RunFailed(_, _) =>
        case ConversationTerminated =>
        case RunCompleted => if z.None? { NothingCreated(x, z, id, most); } else { AllButStateCarries(y, z, id, most); }
        case RunCancelled(_) => if y.None? { BlankFromNothing(x, id, most); } else { TextCarries(y, z, id, most); }
        case _ => OrdinaryTwice(x, id, events);
      }
    }
  }

  // ---------------------------------------------------------------- everything else on its own

  /** What events set the rest of the conversation to; `None` where they leave it alone. */
  datatype Change = Change(title: Option<Text>, activity: Option<Option<AgentActivity>>, at: Option<Time>, ends: bool)

  function Apply(s: Change, c: Chat): (after: Chat) {
    c.(title := if s.title.Some? then s.title.value else c.title,
       titleGenerated := c.titleGenerated || s.title.Some?,
       activity := if s.activity.Some? then s.activity.value else c.activity,
       updatedAt := if s.at.Some? then s.at.value else c.updatedAt,
       terminated := c.terminated || s.ends)
  }

  function Then(s: Change, t: Change): (result: Change) {
    Change(if t.title.Some? then t.title else s.title,
           if t.activity.Some? then t.activity else s.activity,
           if t.at.Some? then t.at else s.at,
           s.ends || t.ends)
  }

  /** What one event sets; `partial` matters to a cancellation only. */
  function Note(e: Event, partial: bool): (result: Change) {
    Change(
      if e.body.ConversationTitled? then Some(e.body.title) else None,
      match e.body
      case StatusChanged(kind, caption, tool) => Some(Some(EventActivity(kind, caption, tool)))
      case AnswerStarted => Some(None)
      case RunCancelled(_) => Some(if partial then None else Some(STOPPED))
      case ConversationTerminated => Some(None)
      case RunCompleted => Some(None)
      case RunFailed(_, _) => Some(None)
      case _ => None,
      Some(e.createdAt),
      e.body.ConversationTerminated?)
  }

  function Notes(x: Option<ChatMessage>, id: MessageId, events: seq<Event>): (result: Change) {
    if events == [] then Change(None, None, None, false)
    else
      var n := |events| - 1;
      Then(Notes(x, id, events[..n]), Note(events[n], Client.Partial(EffectAll(x, id, events[..n]))))
  }

  lemma SurroundIsApply(c: Chat, e: Event, partial: bool)
    ensures Surround(c, e, partial) == Apply(Note(e, partial), c)
  {}

  lemma ApplyThen(s: Change, t: Change, c: Chat, ms: seq<ChatMessage>)
    ensures Apply(t, Apply(s, c).(messages := ms)) == Apply(Then(s, t), c).(messages := ms)
  {}

  lemma ApplyTwice(s: Change, c: Chat, ms: seq<ChatMessage>)
    ensures Apply(s, Apply(s, c).(messages := ms)) == Apply(s, c).(messages := ms)
  {}

  lemma {:induction false} OrdinaryNotes(x: Option<ChatMessage>, y: Option<ChatMessage>, id: MessageId,
                                         events: seq<Event>)
    requires Ordinary(events)
    ensures Notes(x, id, events) == Notes(y, id, events)
  {
    if events != [] {
      OrdinaryNotes(x, y, id, events[..|events| - 1]);
      OrdinaryNote(events[|events| - 1], true, false);
    }
  }

  lemma OrdinaryNote(e: Event, p: bool, q: bool)
    requires !e.body.RunCancelled? || p == q
    ensures Note(e, p) == Note(e, q)
  {}

  /** The second time round every event sets what it set the first time. */
  lemma NotesTwice(x: Option<ChatMessage>, id: MessageId, events: seq<Event>)
    requires ServerStretch(events)
    ensures Notes(EffectAll(x, id, events), id, events) == Notes(x, id, events)
  {
    if events != [] {
      var most := events[..|events| - 1];
      var y := EffectAll(x, id, events);
      OrdinaryNotes(x, y, id, most);
      PartialTwice(x, id, events);
      OrdinaryNote(events[|events| - 1], Client.Partial(EffectAll(y, id, most)),
                   Client.Partial(EffectAll(x, id, most)));
    }
  }

  /** The second time round the last event finds the same text to keep, or none again. */
  lemma PartialTwice(x: Option<ChatMessage>, id: MessageId, events: seq<Event>)
    requires ServerStretch(events) && events != []
    ensures var most := events[..|events| - 1];
            events[|events| - 1].body.RunCancelled? ==>
              Client.Partial(EffectAll(EffectAll(x, id, events), id, most)) == Client.Partial(EffectAll(x, id, most))
  {
    var n := |events| - 1;
    var most := events[..n];
    if events[n].body.RunCancelled? {
      var z := EffectAll(x, id, most);
      var y := Effect(z, id, events[n]);
      if y.None? {
        BlankFromNothing(x, id, most);
      } else {
        OrdinaryTwice(x, id, most);
        TextCarries(y, z, id, most);
      }
    }
  }

  // ---------------------------------------------------------------- the whole conversation

  function Others(messages: seq<ChatMessage>, id: MessageId): (after: seq<ChatMessage>) {
    Without(messages, id)
  }

  /** Where the run's message stands among the others: its index, or the end when it is absent. */
  function Slot(messages: seq<ChatMessage>, id: MessageId): (n: nat) {
    FindIndex(messages, id)
  }

  function Assemble(others: seq<ChatMessage>, slot: nat, current: Option<ChatMessage>): (after: seq<ChatMessage>) {
    if current.None? || slot > |others| then others else others[..slot] + [current.value] + others[slot..]
  }

  lemma {:induction false} WithoutSplits(a: seq<ChatMessage>, b: seq<ChatMessage>, id: MessageId)
    ensures Without(a + b, id) == Without(a, id) + Without(b, id)
  {
    if a == [] {
      assert a + b == b;
    } else {
      assert (a + b)[1..] == a[1..] + b;
      WithoutSplits(a[1..], b, id);
    }
  }

  /** A conversation with at most one response is its other messages with the response put back. */
  lemma ChatSplits(messages: seq<ChatMessage>, id: MessageId)
    requires AtMostOne(messages, id)
    ensures messages == Assemble(Others(messages, id), Slot(messages, id), Response(messages, id))
    ensures Slot(messages, id) <= |Others(messages, id)|
    ensures Response(messages, id).None? ==> Slot(messages, id) == |Others(messages, id)|
  {
    var i := FindIndex(messages, id);
    if i < |messages| {
      WithoutAround(messages[..i], messages[i], messages[i + 1..], id);
      assert messages == messages[..i] + [messages[i]] + messages[i + 1..];
      CutAt(messages[..i], messages[i + 1..]);
    } else {
      WithoutAbsent(messages, id);
    }
  }

  lemma CutAt(a: seq<ChatMessage>, b: seq<ChatMessage>)
    ensures (a + b)[..|a|] == a && (a + b)[|a|..] == b
  {}

  lemma WithoutAround(a: seq<ChatMessage>, m: ChatMessage, b: seq<ChatMessage>, id: MessageId)
    requires m.id == id
    requires forall i :: 0 <= i < |a| ==> a[i].id != id
    requires forall i :: 0 <= i < |b| ==> b[i].id != id
    ensures Without(a + [m] + b, id) == a + b
  {
    assert a + [m] + b == a + ([m] + b);
    WithoutSplits(a, [m] + b, id);
    NoneWithout(a, id);
    NoneWithout(b, id);
    assert ([m] + b)[1..] == b;
  }

  lemma FindAround(a: seq<ChatMessage>, m: ChatMessage, b: seq<ChatMessage>, id: MessageId)
    requires m.id == id
    requires forall i :: 0 <= i < |a| ==> a[i].id != id
    ensures FindIndex(a + [m] + b, id) == |a| && Response(a + [m] + b, id) == Some(m)
  {
    FindIndexIs(a + [m] + b, id, |a|);
  }

  lemma {:induction false} NoneWithout(messages: seq<ChatMessage>, id: MessageId)
    requires forall i :: 0 <= i < |messages| ==> messages[i].id != id
    ensures Without(messages, id) == messages
  {
    if messages != [] { NoneWithout(messages[1..], id); }
  }

  lemma {:induction false} OthersLackIt(messages: seq<ChatMessage>, id: MessageId)
    ensures forall i :: 0 <= i < |Without(messages, id)| ==> Without(messages, id)[i].id != id
  {
    if messages != [] { OthersLackIt(messages[1..], id); }
  }

  lemma {:induction false} FindIndexIs(messages: seq<ChatMessage>, id: MessageId, i: nat)
    requires i <= |messages| && (forall j :: 0 <= j < i ==> messages[j].id != id)
             && (i < |messages| ==> messages[i].id == id)
    ensures FindIndex(messages, id) == i
  {
    if i > 0 { FindIndexIs(messages[1..], id, i - 1); }
  }

  lemma EffectKeepsId(x: Option<ChatMessage>, id: MessageId, e: Event)
    requires x.Some? ==> x.value.id == id
    ensures Effect(x, id, e).Some? ==> Effect(x, id, e).value.id == id
  {}

  /** Replacing the response leaves the other messages' content and order alone. */
  lemma PlaceActsOnResponse(messages: seq<ChatMessage>, id: MessageId, next: Option<ChatMessage>)
    requires AtMostOne(messages, id) && (next.Some? ==> next.value.id == id)
    ensures var after := Place(messages, id, next);
            && AtMostOne(after, id) && Others(after, id) == Others(messages, id) && Response(after, id) == next
            && Slot(after, id) ==
                if next.None? || Response(messages, id).None? then |Others(messages, id)| else Slot(messages, id)
  {
    var i := FindIndex(messages, id);
    if next.None? {
      PlaceNone(messages, id);
    } else if i < |messages| {
      assert messages == messages[..i] + [messages[i]] + messages[i + 1..];
      assert messages[i := next.value] == messages[..i] + [next.value] + messages[i + 1..];
      WithoutAround(messages[..i], messages[i], messages[i + 1..], id);
      WithoutAround(messages[..i], next.value, messages[i + 1..], id);
      FindAround(messages[..i], next.value, messages[i + 1..], id);
    } else {
      assert messages + [next.value] == messages + [next.value] + [];
      WithoutAbsent(messages, id);
      WithoutAround(messages, next.value, [], id);
      FindAround(messages, next.value, [], id);
      assert messages + [] == messages;
    }
  }

  lemma PlaceNone(messages: seq<ChatMessage>, id: MessageId)
    ensures var after := Without(messages, id);
            AtMostOne(after, id) && Without(after, id) == after && FindIndex(after, id) == |after|
  {
    OthersLackIt(messages, id);
    NoneWithout(Without(messages, id), id);
  }

  /** One event acts on the response alone. */
  lemma ReduceActsOnResponse(c: Chat, id: MessageId, e: Event)
    requires AtMostOne(c.messages, id)
    ensures var after := Reduce(c, id, e).messages;
            && AtMostOne(after, id) && Others(after, id) == Others(c.messages, id)
            && Response(after, id) == Effect(Response(c.messages, id), id, e)
            && Slot(after, id) ==
                if Response(after, id).None? || Response(c.messages, id).None? then |Others(c.messages, id)|
                                  else Slot(c.messages, id)
  {
    var x := Response(c.messages, id);
    EffectKeepsId(x, id, e);
    PlaceActsOnResponse(c.messages, id, Effect(x, id, e));
    assert Reduce(c, id, e).messages == Place(c.messages, id, Effect(x, id, e));
  }

  /** A fold is the fold of its parts: others untouched, response by effects, the rest by its changes. */
  lemma {:induction false} FoldParts(c: Chat, id: MessageId, events: seq<Event>)
    requires AtMostOne(c.messages, id)
    ensures var d := Fold(c, id, events);
            && AtMostOne(d.messages, id) && Others(d.messages, id) == Others(c.messages, id)
            && Response(d.messages, id) == EffectAll(Response(c.messages, id), id, events)
            && d == Apply(Notes(Response(c.messages, id), id, events), c).(messages := d.messages)
  {
    if events != [] {
      var most, e := events[..|events| - 1], events[|events| - 1];
      var x := Response(c.messages, id);
      FoldParts(c, id, most);
      ReduceActsOnResponse(Fold(c, id, most), id, e);
      FoldNotes(c, Fold(c, id, most), Notes(x, id, most), id, e);
    }
  }

  lemma FoldNotes(c: Chat, d: Chat, s: Change, id: MessageId, e: Event)
    requires d == Apply(s, c).(messages := d.messages)
    ensures var f := Reduce(d, id, e);
            f == Apply(Then(s, Note(e, Client.Partial(Response(d.messages, id)))), c).(messages := f.messages)
  {
    var partial := Client.Partial(Response(d.messages, id));
    SurroundIsApply(d, e, partial);
    ApplyThen(s, Note(e, partial), c, d.messages);
  }

  lemma {:induction false} OrdinaryNeverRemoves(x: Option<ChatMessage>, id: MessageId, events: seq<Event>)
    requires Ordinary(events) && x.Some?
    ensures EffectAll(x, id, events).Some?
  {
    if events != [] { OrdinaryNeverRemoves(x, id, events[..|events| - 1]); }
  }

  /** Over a server stretch the response keeps its place, or stands at the end if it was new. */
  lemma FoldSlot(c: Chat, id: MessageId, events: seq<Event>)
    requires AtMostOne(c.messages, id) && ServerStretch(events)
    ensures var d := Fold(c, id, events);
            Slot(d.messages, id) ==
                (if Response(d.messages, id).None? || Response(c.messages, id).None? then |Others(c.messages, id)|
                                     else Slot(c.messages, id))
  {
    ChatSplits(c.messages, id);
    if events != [] {
      var most := events[..|events| - 1];
      FoldParts(c, id, most);
      OrdinarySlot(c, id, most);
      ReduceActsOnResponse(Fold(c, id, most), id, events[|events| - 1]);
      if Response(c.messages, id).Some? { OrdinaryNeverRemoves(Response(c.messages, id), id, most); }
    }
  }

  lemma {:induction false} OrdinarySlot(c: Chat, id: MessageId, events: seq<Event>)
    requires AtMostOne(c.messages, id) && Ordinary(events)
    ensures var d := Fold(c, id, events);
            Slot(d.messages, id) ==
                (if Response(d.messages, id).None? || Response(c.messages, id).None? then |Others(c.messages, id)|
                                     else Slot(c.messages, id))
  {
    ChatSplits(c.messages, id);
    if events != [] {
      var most := events[..|events| - 1];
      OrdinarySlot(c, id, most);
      FoldParts(c, id, most);
      ReduceActsOnResponse(Fold(c, id, most), id, events[|events| - 1]);
      if Response(c.messages, id).Some? { OrdinaryNeverRemoves(Response(c.messages, id), id, most); }
    }
  }

  /** Folding a server stretch twice gives the same conversation as folding it once. */
  lemma FoldTwice(c: Chat, id: MessageId, events: seq<Event>)
    requires AtMostOne(c.messages, id) && ServerStretch(events)
    ensures Fold(Fold(c, id, events), id, events) == Fold(c, id, events)
  {
    var d := Fold(c, id, events);
    var x := Response(c.messages, id);
    FoldParts(c, id, events);
    FoldParts(d, id, events);
    NotesTwice(x, id, events);
    ApplyTwice(Notes(x, id, events), c, d.messages);
    MessagesTwice(c, id, events);
  }

  lemma MessagesTwice(c: Chat, id: MessageId, events: seq<Event>)
    requires AtMostOne(c.messages, id) && ServerStretch(events)
    ensures Fold(Fold(c, id, events), id, events).messages == Fold(c, id, events).messages
  {
    var d := Fold(c, id, events);
    var f := Fold(d, id, events);
    FoldParts(c, id, events);
    FoldParts(d, id, events);
    StretchTwice(Response(c.messages, id), id, events);
    FoldSlot(c, id, events);
    FoldSlot(d, id, events);
    ChatSplits(d.messages, id);
    ChatSplits(f.messages, id);
  }

  lemma {:induction false} FoldAppend(c: Chat, id: MessageId, a: seq<Event>, b: seq<Event>)
    ensures Fold(c, id, a + b) == Fold(Fold(c, id, a), id, b)
  {
    if b == [] {
      assert a + b == a;
    } else {
      assert (a + b)[..|a + b| - 1] == a + b[..|b| - 1];
      FoldAppend(c, id, a, b[..|b| - 1]);
    }
  }

  /** At-least-once delivery is harmless: redelivering any stretch of a server-produced log gives the
      same conversation, with at most one response and all other messages untouched. */
  lemma RedeliveryIsHarmless(c: Chat, id: MessageId, pre: seq<Event>, stretch: seq<Event>, post: seq<Event>)
    requires AtMostOne(c.messages, id) && ServerStretch(stretch)
    ensures Fold(c, id, pre + stretch + stretch + post) == Fold(c, id, pre + stretch + post)
    ensures var d := Fold(c, id, pre + stretch + post);
            AtMostOne(d.messages, id) && Others(d.messages, id) == Others(c.messages, id)
  {
    FoldAppend(c, id, pre + stretch + stretch, post);
    FoldAppend(c, id, pre + stretch, stretch);
    FoldAppend(c, id, pre, stretch);
    FoldAppend(c, id, pre + stretch, post);
    FoldParts(c, id, pre);
    FoldTwice(Fold(c, id, pre), id, stretch);
    FoldParts(c, id, pre + stretch + post);
  }

  /** A history of redeliveries: each pair replays the stretch between two points of what has been
      delivered so far. */
  function Deliver(log: seq<Event>, repeats: seq<(nat, nat)>): (events: seq<Event>) {
    if repeats == [] then log
    else
      var (i, j) := repeats[|repeats| - 1];
      Repeat(Deliver(log, repeats[..|repeats| - 1]), i, j)
  }

  function Repeat(sofar: seq<Event>, i: nat, j: nat): (events: seq<Event>) {
    if i <= j <= |sofar| then sofar[..i] + sofar[i..j] + sofar[i..j] + sofar[j..] else sofar
  }

  lemma StretchOf(events: seq<Event>, i: nat, j: nat)
    requires Ordinary(events) && i <= j <= |events|
    ensures ServerStretch(events[i..j])
  {}

  /** Any number of nested redeliveries before the stretch that ends the run is harmless. */
  lemma {:induction false} AnyRedeliveryIsHarmless(c: Chat, id: MessageId, log: seq<Event>, last: seq<Event>,
                                                   repeats: seq<(nat, nat)>)
    requires AtMostOne(c.messages, id) && Ordinary(log)
    ensures Ordinary(Deliver(log, repeats))
    ensures Fold(c, id, Deliver(log, repeats) + last) == Fold(c, id, log + last)
  {
    if repeats != [] {
      var (i, j) := repeats[|repeats| - 1];
      AnyRedeliveryIsHarmless(c, id, log, last, repeats[..|repeats| - 1]);
      RepeatOnce(c, id, Deliver(log, repeats[..|repeats| - 1]), last, i, j);
    }
  }

  lemma RepeatOnce(c: Chat, id: MessageId, sofar: seq<Event>, last: seq<Event>, i: nat, j: nat)
    requires AtMostOne(c.messages, id) && Ordinary(sofar)
    ensures Ordinary(Repeat(sofar, i, j))
    ensures Fold(c, id, Repeat(sofar, i, j) + last) == Fold(c, id, sofar + last)
  {
    if i <= j <= |sofar| {
      StretchOf(sofar, i, j);
      ThreeParts(sofar, i, j);
      RepeatIsOrdinary(sofar[..i], sofar[i..j], sofar[j..]);
      RepeatParts(c, id, sofar[..i], sofar[i..j], sofar[j..], last);
    }
  }

  lemma ThreeParts(sofar: seq<Event>, i: nat, j: nat)
    requires i <= j <= |sofar|
    ensures sofar == sofar[..i] + sofar[i..j] + sofar[j..]
  {}

  lemma RepeatIsOrdinary(a: seq<Event>, b: seq<Event>, d: seq<Event>)
    requires Ordinary(a + b + d)
    ensures Ordinary(a + b + b + d)
  {
    forall i | 0 <= i < |a + b + b + d|
      ensures (a + b + b + d)[i] == (a + b + d)[if i < |a + b| then i else i - |b|]
    {}
  }

  lemma RepeatParts(c: Chat, id: MessageId, a: seq<Event>, b: seq<Event>, d: seq<Event>, last: seq<Event>)
    requires AtMostOne(c.messages, id) && ServerStretch(b)
    ensures Fold(c, id, a + b + b + d + last) == Fold(c, id, a + b + d + last)
  {
    RedeliveryIsHarmless(c, id, a, b, d + last);
    Rejoin(a, b, d, last);
  }

  lemma Rejoin(a: seq<Event>, b: seq<Event>, d: seq<Event>, last: seq<Event>)
    ensures a + b + b + d + last == a + b + b + (d + last)
    ensures a + b + d + last == a + b + (d + last)
  {}

  lemma TwoEvents(c: Chat, id: MessageId, e: Event)
    ensures Fold(c, id, [e]) == Reduce(c, id, e) && Fold(c, id, [e, e]) == Reduce(Reduce(c, id, e), id, e)
  {
    assert [e, e][..1] == [e] && [e][..0] == [];
    assert Fold(c, id, [e][..0]) == c;
  }

  /** The legacy delta is the exception: redelivering one is harmless exactly when it is empty. */
  lemma DeltaIsNotIdempotent(c: Chat, id: MessageId, e: Event)
    requires AtMostOne(c.messages, id) && e.body.AnswerDelta?
    ensures Fold(c, id, [e, e]) == Fold(c, id, [e]) <==> e.body.delta == []
  {
    TwoEvents(c, id, e);
    var d := Reduce(c, id, e);
    var f := Reduce(d, id, e);
    ReduceActsOnResponse(c, id, e);
    ReduceActsOnResponse(d, id, e);
    var y := Response(d.messages, id);
    assert Response(f.messages, id) == Some(y.value.(content := y.value.content + e.body.delta, animated := true));
    if e.body.delta == [] {
      ChatSplits(d.messages, id);
      ChatSplits(f.messages, id);
      assert y.value.content + [] == y.value.content;
    } else {
      assert |y.value.content + e.body.delta| != |y.value.content|;
    }
  }
}
