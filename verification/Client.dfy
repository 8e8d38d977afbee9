/** The client's reducer: how run events change the conversation on screen. */
module Client {
  import opened Records

  /** `animated` is the flag that types the text out on screen. */
  datatype ChatMessage = ChatMessage(
    id: MessageId, role: Role, content: Text, createdAt: Time, state: MessageState, animated: bool)

  datatype AgentActivity = AgentActivity(kind: string, caption: string, tool: Option<string>)

  datatype Chat = Chat(
    title: Text, titleGenerated: bool, pinned: bool, messages: seq<ChatMessage>,
    updatedAt: Time, terminated: bool, activity: Option<AgentActivity>)

  const STOPPED := AgentActivity("stopped", "Stopped", None)

  function EventActivity(kind: string, caption: string, tool: Option<string>): (result: AgentActivity) {
    AgentActivity(if kind in ["thinking", "tool", "composing", "connecting", "stopped"] then kind
        else "thinking", caption, tool)
  }

  predicate ClientBlank(s: Text) {
    forall i :: 0 <= i < |s| ==> ClientSpace(s[i])
  }

  /** Index of the first message with this id; the length when there is none. */
  function FindIndex(messages: seq<ChatMessage>, id: MessageId): (i: nat)
    ensures i <= |messages|
    ensures forall j :: 0 <= j < i ==> messages[j].id != id
    ensures i < |messages| ==> messages[i].id == id
  {
    if messages == [] then 0 else if messages[0].id == id then 0 else 1 + FindIndex(messages[1..], id)
  }

  function Without(messages: seq<ChatMessage>, id: MessageId): (after: seq<ChatMessage>) {
    if messages == [] then []
    else if messages[0].id == id then Without(messages[1..], id)
    else [messages[0]] + Without(messages[1..], id)
  }

  function Settled(messages: seq<ChatMessage>, id: MessageId): (after: seq<ChatMessage>) {
    seq(|messages|, i requires 0 <= i < |messages| =>
      if messages[i].id == id then messages[i].(state := Complete, animated := false) else messages[i])
  }

  // ---------------------------------------------------------------- the effect of one event

  function Opened(id: MessageId, text: Text, at: Time): (result: ChatMessage) {
    ChatMessage(id, Assistant, text, at, Streaming, true)
  }

  function Closed(id: MessageId, text: Text, at: Time, state: MessageState): (result: ChatMessage) {
    ChatMessage(id, Assistant, text, at, state, false)
  }

  /** What an event does to the run's assistant message, if there is one. */
  function Effect(current: Option<ChatMessage>, id: MessageId, e: Event): (result: Option<ChatMessage>) {
    match e.body
    case AnswerStarted => if current.None? then Some(Opened(id, [], e.createdAt)) else current
    case AnswerSnapshot(text) =>
      if current.None? then Some(Opened(id, text, e.createdAt))
          else Some(current.value.(content := text, animated := true))
    case AnswerDelta(delta) =>
      if current.None? then Some(Opened(id, delta, e.createdAt))
      else Some(current.value.(content := current.value.content + delta, animated := true))
    case ArchiveUnavailable(text) => Some(Closed(id, text, e.createdAt, Complete))
    case RunFailed(_, message) => Some(Closed(id, message, e.createdAt, FailedMessage))
    case RunCompleted => if current.None? then None else Some(current.value.(state := Complete))
    case RunCancelled(_) =>
      if current.None? || ClientBlank(current.value.content) then None
      else Some(current.value.(state := Complete, animated := false))
    case _ => current
  }

  /** What an event does to everything but the messages. */
  function Surround(c: Chat, e: Event, partial: bool): (after: Chat) {
    match e.body
    case StatusChanged(kind, caption, tool) => c.(activity := Some(EventActivity(kind, caption, tool)),
                                                  updatedAt := e.createdAt)
    case AnswerStarted => c.(activity := None, updatedAt := e.createdAt)
    case RunCancelled(_) => c.(activity := if partial then None else Some(STOPPED), updatedAt := e.createdAt)
    case ConversationTitled(title) => c.(title := title, titleGenerated := true, updatedAt := e.createdAt)
    case ConversationTerminated => c.(terminated := true, activity := None, updatedAt := e.createdAt)
    case RunCompleted => c.(activity := None, updatedAt := e.createdAt)
    case RunFailed(_, _) => c.(activity := None, updatedAt := e.createdAt)
    case _ => c.(updatedAt := e.createdAt)
  }

  function Response(messages: seq<ChatMessage>, id: MessageId): (message: Option<ChatMessage>) {
    var i := FindIndex(messages, id);
    if i < |messages| then Some(messages[i]) else None
  }

  predicate AtMostOne(messages: seq<ChatMessage>, id: MessageId) {
    forall i, j :: 0 <= i < j < |messages| ==> !(messages[i].id == id && messages[j].id == id)
  }

  /** Replace the run's message by its new value: in place, at the end, or not at all. */
  function Place(messages: seq<ChatMessage>, id: MessageId, next: Option<ChatMessage>): (after: seq<ChatMessage>) {
    var i := FindIndex(messages, id);
    if next.None? then Without(messages, id)
    else if i < |messages| then messages[i := next.value]
    else messages + [next.value]
  }

  function Partial(current: Option<ChatMessage>): (result: bool) {
    current.Some? && !ClientBlank(current.value.content)
  }

  function Reduce(c: Chat, id: MessageId, e: Event): (after: Chat) {
    var current := Response(c.messages, id);
    Surround(c, e, Partial(current)).(messages := Place(c.messages, id, Effect(current, id, e)))
  }

  function Fold(c: Chat, id: MessageId, events: seq<Event>): (after: Chat) {
    if events == [] then c else Reduce(Fold(c, id, events[..|events| - 1]), id, events[|events| - 1])
  }

  // ---------------------------------------------------------------- the reducer itself

  method FinalizeCancelled(c: Chat, id: MessageId, stoppedAt: Time) returns (next: Chat)
    requires AtMostOne(c.messages, id)
    ensures forall text :: next == Reduce(c, id, Event(0, RunCancelled(text), stoppedAt))
  {
    var i := FindIndex(c.messages, id);
    var hasPartialAnswer := i < |c.messages| && !ClientBlank(c.messages[i].content);
    var messages := if hasPartialAnswer then Settled(c.messages, id) else Without(c.messages, id);
    if hasPartialAnswer { SettledIsPlace(c.messages, id); }
    next := c.(messages := messages,
               activity := if hasPartialAnswer then None else Some(STOPPED),
               updatedAt := stoppedAt);
  }

  lemma SettledIsPlace(messages: seq<ChatMessage>, id: MessageId)
    requires AtMostOne(messages, id) && FindIndex(messages, id) < |messages|
    ensures var i := FindIndex(messages, id);
            Settled(messages, id) == messages[i := messages[i].(state := Complete, animated := false)]
  {}

  lemma {:induction false} WithoutAbsent(messages: seq<ChatMessage>, id: MessageId)
    requires FindIndex(messages, id) == |messages|
    ensures Without(messages, id) == messages
  {
    if messages != [] { WithoutAbsent(messages[1..], id); }
  }

  /** What a delivered event makes of the messages: everything but a cancellation. */
  method UpdateMessages(messages: seq<ChatMessage>, id: MessageId, event: Event) returns (next: seq<ChatMessage>)
    requires AtMostOne(messages, id) && !event.body.RunCancelled?
    ensures next == Place(messages, id, Effect(Response(messages, id), id, event))
  {
    next := messages;
    var responseIndex := FindIndex(messages, id);
    var absent := responseIndex == |messages|;
    if absent { WithoutAbsent(messages, id); }
    assert !absent ==> messages[responseIndex := messages[responseIndex]] == messages;
    match event.body {
      case AnswerStarted =>
        if absent {
          next := next + [Opened(id, [], event.createdAt)];
        }
      case AnswerSnapshot(text) =>
        if absent {
          next := next + [Opened(id, text, event.createdAt)];
        } else {
          next := next[responseIndex := next[responseIndex].(content := text, animated := true)];
        }
      case AnswerDelta(delta) =>
        if absent {
          next := next + [Opened(id, delta, event.createdAt)];
        } else {
          next :=
              next[responseIndex :=
              next[responseIndex].(content := next[responseIndex].content + delta, animated := true)];
        }
      case ArchiveUnavailable(text) =>
        var response := Closed(id, text, event.createdAt, Complete);
        if absent {
          next := next + [response];
        } else {
          next := next[responseIndex := response];
        }
      case RunFailed(_, message) =>
        var response := Closed(id, message, event.createdAt, FailedMessage);
        if absent {
          next := next + [response];
        } else {
          next := next[responseIndex := response];
        }
      case RunCompleted =>
        if !absent {
          next := next[responseIndex := next[responseIndex].(state := Complete)];
        }
      case _ =>
    }
  }

  /** The update callback. Once the user has asked to stop, only the cancellation is let through. */
  method UpdateFromEvent(c: Chat, id: MessageId, cancelRequested: bool, event: Event) returns (next: Chat)
    requires AtMostOne(c.messages, id)
    ensures next == if cancelRequested && !event.body.RunCancelled? then c else Reduce(c, id, event)
  {
    if cancelRequested && !event.body.RunCancelled? {
      return c;
    }
    if event.body.RunCancelled? {
      next := FinalizeCancelled(c, id, event.createdAt);
      assert Reduce(c, id, Event(0, RunCancelled(event.body.partialAnswer), event.createdAt)) == Reduce(c, id, event);
      return next;
    }
    var messages := UpdateMessages(c.messages, id, event);
    if event.body.StatusChanged? {
      return c.(activity := Some(EventActivity(event.body.kind, event.body.caption, event.body.tool)),
                messages := messages, updatedAt := event.createdAt);
    }
    if event.body.AnswerStarted? {
      return c.(activity := None, messages := messages, updatedAt := event.createdAt);
    }
    var receivedTitle := event.body.ConversationTitled?;
    next := c.(
      title := if receivedTitle then event.body.title else c.title,
      titleGenerated := receivedTitle || c.titleGenerated,
      messages := messages,
      terminated := event.body.ConversationTerminated? || c.terminated,
      activity := if TerminalBody(event.body) then None else c.activity,
      updatedAt := event.createdAt);
  }
}
