/** The browser's copy of a conversation: when it is uploaded, and what the upload makes of the server's. */
module Uploads {
  import opened Records
  import opened Transactions
  import opened Stream
  import opened Client
  import opened Replay
  import opened Screen
  import opened Agreement
  import opened Outcomes
  import Editing

  // ---------------------------------------------------------------- what is uploaded

  /** Nothing is going on in the conversation, and no message is still being streamed. */
  predicate Persistable(c: Chat) {
    && (c.activity.None? || c.activity.value.kind == "stopped")
    && forall i :: 0 <= i < |c.messages| ==> c.messages[i].state != Streaming
  }

  /** The message is among those a browser sends. */
  predicate Sendable(m: ChatMessage) {
    m.state != Streaming && !ClientBlank(m.content)
  }

  function Sending(messages: seq<ChatMessage>): (sent: seq<StoredMessage>) {
    if messages == [] then []
    else
      var m := messages[|messages| - 1];
      Sending(messages[..|messages| - 1]) +
          (if Sendable(m) then [StoredMessage(m.id, m.role, m.content, m.state)] else [])
  }

  function Payload(c: Chat): (body: Write) {
    Write(c.title, c.titleGenerated, c.pinned, c.terminated, c.updatedAt, Sending(c.messages))
  }

  // ---------------------------------------------------------------- what the server then stores

  /** The list holds the message, and the server keeps it. */
  predicate Brings(body: seq<StoredMessage>, id: MessageId, content: Text) {
    exists i :: 0 <= i < |body| && body[i].id == id && Kept(body[i]) && body[i].content == content
  }

  predicate BringsNone(body: seq<StoredMessage>, id: MessageId) {
    forall i :: 0 <= i < |body| && body[i].id == id ==> !Kept(body[i])
  }

  lemma {:induction false} ReinsertedContent(messages: map<MessageId, MessageRecord>, body: seq<StoredMessage>,
                                             c: ConversationId, u: UserId, id: MessageId, content: Text)
    requires Reinsert(messages, body, c, u).Some?
    ensures var after := Reinsert(messages, body, c, u).value;
            && (id in messages ==> id in after && after[id] == messages[id])
            && (Brings(body, id, content) ==> id in after && after[id].content == content)
            && (BringsNone(body, id) ==> (id in after <==> id in messages))
  {
    if body != [] {
      var n := |body| - 1;
      ReinsertedContent(messages, body[..n], c, u, id, content);
      if Brings(body, id, content) {
        var i :| 0 <= i < |body| && body[i].id == id && Kept(body[i]) && body[i].content == content;
        if i < n { assert body[..n][i] == body[i]; }
      }
      if BringsNone(body, id) {
        forall i | 0 <= i < n && body[..n][i].id == id ensures !Kept(body[..n][i]) { assert body[i] == body[..n][i]; }
      }
    }
  }

  /** The server keeps what the browser sends of this message. */
  predicate Arriving(x: Option<ChatMessage>) {
    x.Some? && Sendable(x.value) && !Blank(x.value.content)
  }

  lemma {:induction false} SendingBrings(messages: seq<ChatMessage>, id: MessageId)
    requires AtMostOne(messages, id)
    ensures var x := Response(messages, id);
            if Arriving(x) then Brings(Sending(messages), id, x.value.content) else BringsNone(Sending(messages), id)
  {
    if messages != [] {
      var most, m := messages[..|messages| - 1], messages[|messages| - 1];
      SendingBrings(most, id);
      ResponseLast(most, m, messages, id);
      SentLast(Sending(most), m, Sending(messages), id);
    }
  }

  lemma ResponseLast(most: seq<ChatMessage>, m: ChatMessage, messages: seq<ChatMessage>, id: MessageId)
    requires messages == most + [m] && AtMostOne(messages, id)
    ensures Response(messages, id) == if m.id == id then Some(m) else Response(most, id)
    ensures m.id == id ==> Response(most, id).None?
  {
    forall j | 0 <= j < |most| ensures messages[j] == most[j] {}
    assert messages[|most|] == m;
    if m.id == id {
      forall j | 0 <= j < |most| ensures most[j].id != id { assert messages[j].id != id; }
      FindIndexIs(messages, id, |most|);
      FindIndexIs(most, id, |most|);
    } else {
      var i := FindIndex(most, id);
      FindIndexIs(messages, id, if i < |most| then i else |messages|);
    }
  }

  lemma SentLast(before: seq<StoredMessage>, m: ChatMessage, sent: seq<StoredMessage>, id: MessageId)
    requires sent == before + (if Sendable(m) then [StoredMessage(m.id, m.role, m.content, m.state)] else [])
    ensures m.id != id ==> (BringsNone(before, id) ==> BringsNone(sent, id))
    ensures forall text :: Brings(before, id, text) ==> Brings(sent, id, text)
    ensures m.id == id && BringsNone(before, id) ==>
              if Arriving(Some(m)) then Brings(sent, id, m.content) else BringsNone(sent, id)
  {
    forall text | Brings(before, id, text) ensures Brings(sent, id, text) {
      var i :| 0 <= i < |before| && before[i].id == id && Kept(before[i]) && before[i].content == text;
      assert sent[i] == before[i];
    }
    if Sendable(m) { assert sent[|before|] == StoredMessage(m.id, m.role, m.content, m.state); }
    if BringsNone(before, id) {
      forall i | 0 <= i < |before| && sent[i].id == id ensures !Kept(sent[i]) { assert sent[i] == before[i]; }
    }
  }

  lemma {:induction false} SendingAt(messages: seq<ChatMessage>, k: nat)
    requires k < |messages| && Sendable(messages[k])
    ensures var i, m := |Sending(messages[..k])|, messages[k];
            i < |Sending(messages)| && Sending(messages)[i] == StoredMessage(m.id, m.role, m.content, m.state)
    ensures Sending(messages[..k]) <= Sending(messages)
  {
    var most := messages[..|messages| - 1];
    if k < |most| {
      assert most[..k] == messages[..k];
      SendingAt(most, k);
    } else {
      assert messages[..k] == most;
    }
  }

  lemma SentIsReplaced(messages: map<MessageId, MessageRecord>, after: map<MessageId, MessageRecord>,
                       chat: seq<ChatMessage>, body: seq<StoredMessage>, c: ConversationId, u: UserId, k: nat, i: nat)
    requires Editing.Replaced(messages, after, body, c, u) && body == Sending(chat)
    requires k < |chat| && Sendable(chat[k]) && !Blank(chat[k].content) && i == |Sending(chat[..k])|
    ensures chat[k].id in after
            && after[chat[k].id] == MessageRecord(c, u, i + 1, chat[k].role, chat[k].content, chat[k].state)
  {
    SendingAt(chat, k);
    Editing.KeptStays(body[i]);
  }

  lemma SendingGrows(messages: seq<ChatMessage>, j: nat, k: nat)
    requires j < k <= |messages| && Sendable(messages[j])
    ensures |Sending(messages[..j])| < |Sending(messages[..k])|
  {
    SendingAt(messages[..k], j);
    assert messages[..k][..j] == messages[..j];
  }

  lemma AcceptedUpload(db: Db, c: ConversationId, u: UserId, body: Write, now: Time, after: Db,
                       base: map<MessageId, MessageRecord>)
    requires c in db.conversations && db.conversations[c].owner == u && Editing.Unclashing(db, c, body.messages)
    requires after == UpsertConversation(db, c, u, body, now) && base == Editing.Others(db, c)
    ensures Editing.Replaced(base, after.messages, body.messages, c, u)
    ensures c in after.conversations && after.conversations[c].title == body.title
            && after.conversations[c].pinned == body.pinned && (body.terminated ==> after.conversations[c].terminated)
  {
    Editing.ReinsertIs(base, body.messages, c, u, Reinsert(base, body.messages, c, u));
    Editing.ApartIs(db, c, body.messages);
    Editing.UploadTables(db, c, u, body, now, after);
  }

  /** An upload that is accepted stores the title, the pin and every message sent that is not blank: its role,
      its text and its state, in the order of the screen. */
  lemma UploadStoresMessages(db: Db, conversation: ConversationId, u: UserId, chat: Chat, now: Time, after: Db, k: nat)
    requires conversation in db.conversations && db.conversations[conversation].owner == u
    requires Editing.Unclashing(db, conversation, Payload(chat).messages)
    requires after == UpsertConversation(db, conversation, u, Payload(chat), now)
    requires k < |chat.messages| && Sendable(chat.messages[k]) && !Blank(chat.messages[k].content)
    ensures conversation in after.conversations && after.conversations[conversation].title == chat.title
            && after.conversations[conversation].pinned == chat.pinned
            && (chat.terminated ==> after.conversations[conversation].terminated)
    ensures var m := chat.messages[k];
            m.id in after.messages
            && after.messages[m.id] ==
                MessageRecord(conversation, u, |Sending(chat.messages[..k])| + 1, m.role, m.content,
                                                     m.state)
    ensures forall j :: 0 <= j < k && Sendable(chat.messages[j]) ==>
              |Sending(chat.messages[..j])| < |Sending(chat.messages[..k])|
  {
    var base := Editing.Others(db, conversation);
    AcceptedUpload(db, conversation, u, Payload(chat), now, after, base);
    SentIsReplaced(base, after.messages, chat.messages, Payload(chat).messages, conversation, u, k,
                   |Sending(chat.messages[..k])|);
    forall j | 0 <= j < k && Sendable(chat.messages[j])
      ensures |Sending(chat.messages[..j])| < |Sending(chat.messages[..k])|
    {
      SendingGrows(chat.messages, j, k);
    }
  }

  /** After an accepted upload the server stores the browser's response, where the browser sends it and the
      server keeps it, and otherwise nothing of that conversation. */
  lemma UploadStoresScreen(db: Db, conversation: ConversationId, u: UserId, chat: Chat, now: Time, after: Db,
                           m: MessageId)
    requires AtMostOne(chat.messages, AssistantId(m))
    requires conversation in db.conversations && db.conversations[conversation].owner == u
    requires Reinsert(WithoutConversation(db.messages, conversation), Payload(chat).messages, conversation, u).Some?
    requires after == UpsertConversation(db, conversation, u, Payload(chat), now)
    requires AssistantId(m) in db.messages ==> db.messages[AssistantId(m)].conversation == conversation
    ensures var x := Response(chat.messages, AssistantId(m));
            Stored(after, m) == if Arriving(x) then Some(x.value.content) else None
  {
    var id := AssistantId(m);
    var x := Response(chat.messages, id);
    var base := WithoutConversation(db.messages, conversation);
    SendingBrings(chat.messages, id);
    ReinsertedContent(base, Payload(chat).messages, conversation, u, id, if x.Some? then x.value.content else []);
    assert id !in base;
  }

  // ---------------------------------------------------------------- after a run has ended

  /** Where a browser that is done with a run leaves the response in the state of streaming. */
  predicate LeftStreaming(k: Ending, h: Heard) {
    h.ToTheEnd? && k.ByTurn? && k.turn.TerminateTurn?
  }

  lemma {:induction false} InProgressStreams(id: MessageId, log: seq<Event>)
    requires InProgress(log)
    ensures var x := EffectAll(None, id, log); x.Some? ==> x.value.state == Streaming
  {
    if log != [] {
      assert forall i :: 0 <= i < |log| - 1 ==> log[..|log| - 1][i] == log[i];
      InProgressStreams(id, log[..|log| - 1]);
    }
  }

  lemma ClosingSettles(x: Option<ChatMessage>, id: MessageId, log: seq<Event>, first: nat, k: Ending, now: Time,
                       y: Option<ChatMessage>)
    requires x.Some? ==> x.value.state == Streaming
    requires y == EffectAll(x, id, NumberedEvents(first, ClosingBodies(k, log), now))
    ensures y.Some? ==> (y.value.state == Streaming <==> k.ByTurn? && k.turn.TerminateTurn?)
  {
    match k
    case ByTurn(turn) => TurnEffect(x, id, first, turn, now);
    case ByFailure(code) => OneClosingEvent(x, id, first, RunFailed(code, UNREACHABLE_COPY), now);
    case ByWorker => OneClosingEvent(x, id, first, RunCancelled(SnapshotText(log)), now);
    case BeforeDispatch => OneClosingEvent(x, id, first, RunCancelled([]), now);
  }

  lemma FollowerSettles(id: MessageId, c: Chat, log: seq<Event>, first: nat, k: Ending, now: Time, closed: seq<Event>,
                        heard: seq<Event>)
    requires Response(c.messages, id).None? && AtMostOne(c.messages, id)
    requires InProgress(log) && Closes(log, first, k, now, closed) && heard <= closed && Ended(heard)
    ensures var x := Response(Fold(c, id, heard).messages, id);
            x.Some? ==> (x.value.state == Streaming <==> LeftStreaming(k, ToTheEnd))
  {
    ReceivedOfClosed(log, first, k, now, closed, []);
    assert closed + [] == closed;
    EndedIsAll(closed, heard);
    FoldParts(c, id, heard);
    InProgressStreams(id, log);
    EffectAppend(None, id, log, NumberedEvents(first, ClosingBodies(k, log), now));
    ClosingSettles(EffectAll(None, id, log), id, log, first, k, now, EffectAll(None, id, closed));
  }

  /** A browser that is done with a run leaves no message of it streaming, unless it has heard the run
      terminate after an answer had begun. */
  lemma WatchSettles(id: MessageId, c: Chat, inputs: seq<Input>, v: Watching, log: seq<Event>, first: nat, k: Ending,
                     now: Time, closed: seq<Event>, later: seq<Event>)
    requires Response(c.messages, id).None? && AtMostOne(c.messages, id)
    requires v == Watch(id, Watching(c, false, true), inputs) && !v.active
    requires InProgress(log) && Closes(log, first, k, now, closed) && Arrived(inputs) <= UpToTerminal(closed + later)
    ensures AtMostOne(v.chat.messages, id)
    ensures var x := Response(v.chat.messages, id);
            x.Some? ==> (x.value.state == Streaming <==> LeftStreaming(k, HeardBy(inputs)))
  {
    WatchShowsSeen(id, c, inputs, v);
    SeenBegins(inputs);
    ReceivedOfClosed(log, first, k, now, closed, later);
    if !Stopped(inputs) { FollowerSettles(id, c, log, first, k, now, closed, Seen(inputs)); }
  }

  /** A text that one side takes for blank is not carried over. */
  predicate Carried(text: Option<Text>) {
    text.Some? ==> !ClientBlank(text.value) && !Blank(text.value)
  }

  /** The next upload of a browser that is done with a run makes the server store what that browser shows,
      exactly when the text is not blank and the run has not been heard to terminate with text on screen:
      then the response stays in the state of streaming, and the conversation is not uploaded at all. */
  lemma UploadSettles(
    id: MessageId, m: MessageId, c: Chat, inputs: seq<Input>, v: Watching, log: seq<Event>, first: nat, k: Ending,
    at: Time, closed: seq<Event>, later: seq<Event>, db: Db, conversation: ConversationId, u: UserId, now: Time,
    after: Db)
    requires id == AssistantId(m) && Response(c.messages, id).None? && AtMostOne(c.messages, id)
    requires v == Watch(id, Watching(c, false, true), inputs) && !v.active
    requires InProgress(log) && Closes(log, first, k, at, closed) && Arrived(inputs) <= UpToTerminal(closed + later)
    requires conversation in db.conversations && db.conversations[conversation].owner == u
    requires Reinsert(WithoutConversation(db.messages, conversation), Payload(v.chat).messages, conversation, u).Some?
    requires id in db.messages ==> db.messages[id].conversation == conversation
    requires after == UpsertConversation(db, conversation, u, Payload(v.chat), now)
    ensures var shown := TextOf(Response(v.chat.messages, id));
            && (Stored(after, m) == shown <==> shown.None? || (Carried(shown) && !LeftStreaming(k, HeardBy(inputs))))
            && (shown.Some? && LeftStreaming(k, HeardBy(inputs)) ==> !Persistable(v.chat))
  {
    WatchSettles(id, c, inputs, v, log, first, k, at, closed, later);
    UploadStoresScreen(db, conversation, u, v.chat, now, after, m);
    ResponseIsThere(v.chat.messages, id);
  }

  lemma ResponseIsThere(messages: seq<ChatMessage>, id: MessageId)
    ensures Response(messages, id).Some? ==>
            exists i :: 0 <= i < |messages| && messages[i] == Response(messages, id).value
  {}
}
