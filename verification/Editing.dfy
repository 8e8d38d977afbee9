/** What an edit, an upload and a deletion remove and what they leave, row by row. */
module Editing {
  import opened Records
  import opened Transactions
  import opened Protocol

  /** The control is the sender's, in the conversation. */
  predicate SendersControl(k: Control, c: ConversationId, owner: Option<UserId>, session: string) {
    && k.conversation == c
    && match owner
       case Some(u) => k.owner == Some(u)
       case None => k.session == session
  }

  // ---------------------------------------------------------------- an edit

  /** Exactly the sender's controls of the conversation from the edited one on are gone. */
  ghost predicate ControlsCut(db: Db, after: Db, c: ConversationId, owner: Option<UserId>, session: string, from: nat) {
    && (forall q :: q in after.controls <==>
          q in db.controls && !(SendersControl(db.controls[q], c, owner, session) && db.controls[q].ordinal >= from))
    && (forall q :: q in after.controls ==> after.controls[q] == db.controls[q])
  }

  /** Exactly the user's messages of the conversation from the edited one on are gone. */
  ghost predicate MessagesCut(db: Db, after: Db, c: ConversationId, u: UserId, from: nat) {
    && (forall q :: q in after.messages <==>
          q in db.messages && !(db.messages[q].conversation == c && db.messages[q].owner == u
                                && db.messages[q].ordinal >= from))
    && (forall q :: q in after.messages ==> after.messages[q] == db.messages[q])
  }

  /** The conversation is open again, one revision on. */
  predicate Reopened(db: Db, after: Db, c: ConversationId, now: Time) {
    if c in db.conversations then
      var k := db.conversations[c];
      after.conversations == db.conversations[c :=
        Conversation(k.owner, k.title, k.titleGenerated, k.pinned, false, k.revision + 1, now)]
    else after.conversations == db.conversations
  }

  lemma ControlsCutIs(db: Db, after: Db, c: ConversationId, owner: Option<UserId>, session: string, from: nat)
    requires after.controls == DropControls(db.controls, c, owner, session, from)
    ensures ControlsCut(db, after, c, owner, session, from)
  {
    forall q | q in db.controls
      ensures ControlOf(db.controls[q], c, owner, session) <==> SendersControl(db.controls[q], c, owner, session) {}
  }

  lemma MessagesCutIs(db: Db, after: Db, c: ConversationId, u: UserId, from: nat)
    requires after.messages == DropMessages(db.messages, c, u, from)
    ensures MessagesCut(db, after, c, u, from)
  {}

  lemma EditTables(db: Db, c: ConversationId, m: MessageId, owner: Option<UserId>, session: string, now: Time,
                   after: Db)
    requires after == EditMessage(db, c, m, owner, session, now)
    requires m in db.controls && ControlOf(db.controls[m], c, owner, session)
    ensures after.controls == DropControls(db.controls, c, owner, session, db.controls[m].ordinal)
    ensures if owner.Some? && m in db.messages && db.messages[m].owner == owner.value
            then after.messages == DropMessages(db.messages, c, owner.value, db.messages[m].ordinal)
                 && Reopened(db, after, c, now)
            else after.messages == db.messages && after.conversations == db.conversations
  {}

  /** An edit of a message under the sender's control removes the sender's controls from it on; of a user's
      stored message also that user's messages from it on, and it opens the conversation again. Any other
      edit changes nothing. */
  lemma EditRemovesTheRest(cfg: Config, s: System, c: ConversationId, m: MessageId, owner: Option<UserId>,
                           session: string, now: Time, after: System)
    requires after == Apply(cfg, s, Edit(c, m, owner, session, now))
    ensures !(m in s.db.controls && SendersControl(s.db.controls[m], c, owner, session)) ==> after == s
    ensures m in s.db.controls && SendersControl(s.db.controls[m], c, owner, session) ==>
              && ControlsCut(s.db, after.db, c, owner, session, s.db.controls[m].ordinal)
              && if owner.Some? && m in s.db.messages && s.db.messages[m].owner == owner.value
                 then MessagesCut(s.db, after.db, c, owner.value, s.db.messages[m].ordinal)
                      && Reopened(s.db, after.db, c, now)
                 else after.db.messages == s.db.messages && after.db.conversations == s.db.conversations
  {
    if m in s.db.controls && SendersControl(s.db.controls[m], c, owner, session) {
      EditTables(s.db, c, m, owner, session, now, after.db);
      ControlsCutIs(s.db, after.db, c, owner, session, s.db.controls[m].ordinal);
      if owner.Some? && m in s.db.messages && s.db.messages[m].owner == owner.value {
        MessagesCutIs(s.db, after.db, c, owner.value, s.db.messages[m].ordinal);
      }
    }
  }

  // ---------------------------------------------------------------- an upload

  /** The server keeps an uploaded message that is no longer streaming and is not blank. */
  predicate Stays(m: StoredMessage) {
    m.state in {Complete, FailedMessage} && exists i :: 0 <= i < |m.content| && !ServerSpace(m.content[i])
  }

  /** The message is stored elsewhere: in another conversation, or in none when this one is not stored. */
  predicate Elsewhere(db: Db, c: ConversationId, id: MessageId) {
    id in db.messages && (c in db.conversations ==> db.messages[id].conversation != c)
  }

  /** No message that stays is stored elsewhere or comes twice. */
  predicate Unclashing(db: Db, c: ConversationId, body: seq<StoredMessage>) {
    && (forall i :: 0 <= i < |body| && Stays(body[i]) ==> !Elsewhere(db, c, body[i].id))
    && (forall i, j :: 0 <= i < j < |body| && Stays(body[i]) && Stays(body[j]) ==> body[i].id != body[j].id)
  }

  /** The messages stored elsewhere, and those uploaded that stay, each at its position. */
  predicate Replaced(messages: map<MessageId, MessageRecord>, after: map<MessageId, MessageRecord>,
                     body: seq<StoredMessage>, c: ConversationId, u: UserId) {
    && (forall i :: 0 <= i < |body| && Stays(body[i]) ==>
          && body[i].id in after
          && after[body[i].id] == MessageRecord(c, u, i + 1, body[i].role, body[i].content, body[i].state))
    && (forall q :: q in messages ==> q in after && after[q] == messages[q])
    && (forall q :: q in after ==> q in messages || exists i :: 0 <= i < |body| && Stays(body[i]) && body[i].id == q)
  }

  /** Nothing uploaded clashes with these messages or with itself. */
  predicate Apart(messages: map<MessageId, MessageRecord>, body: seq<StoredMessage>) {
    && (forall i :: 0 <= i < |body| && Stays(body[i]) ==> body[i].id !in messages)
    && (forall i, j :: 0 <= i < j < |body| && Stays(body[i]) && Stays(body[j]) ==> body[i].id != body[j].id)
  }

  lemma KeptStays(m: StoredMessage)
    ensures Kept(m) <==> Stays(m)
  {
    match m.state
    case Complete =>
    case Streaming =>
    case FailedMessage =>
  }

  lemma ApartBefore(messages: map<MessageId, MessageRecord>, body: seq<StoredMessage>, most: seq<StoredMessage>,
                    m: StoredMessage)
    requires body == most + [m]
    ensures Apart(messages, body) <==>
            && Apart(messages, most)
            && (Stays(m) ==> m.id !in messages && forall i :: 0 <= i < |most| && Stays(most[i]) ==> most[i].id != m.id)
  {
    assert body[|most|] == m && forall i :: 0 <= i < |most| ==> body[i] == most[i];
  }

  lemma ReplacedNext(messages: map<MessageId, MessageRecord>, before: map<MessageId, MessageRecord>,
                     body: seq<StoredMessage>, most: seq<StoredMessage>, m: StoredMessage, c: ConversationId, u: UserId,
                     after: map<MessageId, MessageRecord>)
    requires body == most + [m] && Replaced(messages, before, most, c, u)
    requires Stays(m) ==> m.id !in before
    requires after == if Stays(m)
                      then before[m.id := MessageRecord(c, u, |most| + 1, m.role, m.content, m.state)] else before
    ensures Replaced(messages, after, body, c, u)
  {
    assert body[|most|] == m && forall i :: 0 <= i < |most| ==> body[i] == most[i];
    forall q | q in after
      ensures q in messages || exists i :: 0 <= i < |body| && Stays(body[i]) && body[i].id == q
    {
      if q in before && q !in messages {
        var i :| 0 <= i < |most| && Stays(most[i]) && most[i].id == q;
        assert Stays(body[i]) && body[i].id == q;
      }
    }
  }

  lemma {:induction false} ReinsertIs(messages: map<MessageId, MessageRecord>, body: seq<StoredMessage>,
                                      c: ConversationId, u: UserId, after: Option<map<MessageId, MessageRecord>>)
    requires after == Reinsert(messages, body, c, u)
    ensures after.Some? <==> Apart(messages, body)
    ensures after.Some? ==> Replaced(messages, after.value, body, c, u)
  {
    if body != [] {
      var most, m := body[..|body| - 1], body[|body| - 1];
      var before := Reinsert(messages, most, c, u);
      assert body == most + [m];
      ReinsertIs(messages, most, c, u, before);
      KeptStays(m);
      ApartBefore(messages, body, most, m);
      if before.Some? {
        TakenOrFree(messages, before.value, most, c, u, m.id);
        if after.Some? { ReplacedNext(messages, before.value, body, most, m, c, u, after.value); }
      }
    }
  }

  lemma TakenOrFree(messages: map<MessageId, MessageRecord>, before: map<MessageId, MessageRecord>,
                    most: seq<StoredMessage>, c: ConversationId, u: UserId, id: MessageId)
    requires Replaced(messages, before, most, c, u)
    ensures id in before <==> id in messages || exists i :: 0 <= i < |most| && Stays(most[i]) && most[i].id == id
  {}

  /** The stored messages that an upload leaves alone. */
  function Others(db: Db, c: ConversationId): (messages: map<MessageId, MessageRecord>) {
    if c in db.conversations then WithoutConversation(db.messages, c) else db.messages
  }

  lemma OthersAre(db: Db, c: ConversationId)
    ensures forall q :: q in Others(db, c) <==> Elsewhere(db, c, q)
    ensures forall q :: q in Others(db, c) ==> Others(db, c)[q] == db.messages[q]
  {}

  lemma ApartIs(db: Db, c: ConversationId, body: seq<StoredMessage>)
    ensures Apart(Others(db, c), body) <==> Unclashing(db, c, body)
  {
    OthersAre(db, c);
  }

  /** Some control of the user has ended the conversation. */
  predicate EndedByControl(db: Db, c: ConversationId, u: UserId) {
    exists m :: && m in db.controls && db.controls[m].conversation == c && db.controls[m].owner == Some(u)
                && db.controls[m].action == TerminateAction
  }

  /** The conversation as uploaded: an ended one stays ended, and time does not run back. */
  function UploadedConversation(db: Db, c: ConversationId, u: UserId, body: Write, now: Time): (row: Conversation) {
    if c in db.conversations then
      Conversation(db.conversations[c].owner, body.title, body.titleGenerated, body.pinned,
                   body.terminated || EndedByControl(db, c, u), db.conversations[c].revision + 1,
                   if body.updatedAt < now then now else body.updatedAt)
    else
      Conversation(u, body.title, body.titleGenerated, body.pinned, body.terminated, 1, body.updatedAt)
  }

  lemma UploadTables(db: Db, c: ConversationId, u: UserId, body: Write, now: Time, after: Db)
    requires after == UpsertConversation(db, c, u, body, now)
    ensures var stored := Reinsert(Others(db, c), body.messages, c, u);
            if (c in db.conversations ==> db.conversations[c].owner == u) && stored.Some? then
              after.messages == stored.value
              && after.conversations == db.conversations[c := WrittenConversation(db, c, u, body, now)]
            else after == db
  {}

  lemma WrittenIs(db: Db, c: ConversationId, u: UserId, body: Write, now: Time)
    ensures WrittenConversation(db, c, u, body, now) == UploadedConversation(db, c, u, body, now)
  {}

  /** An upload is stored exactly when the conversation is new or the user's and no message that stays
      clashes: then the conversation holds exactly those messages, in the order they came, and nothing else
      is touched. Otherwise nothing changes. */
  lemma UploadReplaces(cfg: Config, s: System, c: ConversationId, u: UserId, body: Write, now: Time, after: System,
                       others: map<MessageId, MessageRecord>)
    requires after == Apply(cfg, s, Upsert(c, u, body, now))
    requires forall q :: q in others <==> Elsewhere(s.db, c, q)
    requires forall q :: q in others ==> q in s.db.messages && others[q] == s.db.messages[q]
    ensures if (c in s.db.conversations ==> s.db.conversations[c].owner == u) && Unclashing(s.db, c, body.messages) then
              && Replaced(others, after.db.messages, body.messages, c, u)
              && after.db.conversations ==
                 s.db.conversations[c := UploadedConversation(s.db, c, u, body, now)]
            else after == s
    ensures after.db.controls == s.db.controls && after.db.runs == s.db.runs
  {
    OthersAre(s.db, c);
    assert others == Others(s.db, c);
    UploadTables(s.db, c, u, body, now, after.db);
    ReinsertIs(others, body.messages, c, u, Reinsert(others, body.messages, c, u));
    ApartIs(s.db, c, body.messages);
    WrittenIs(s.db, c, u, body, now);
  }

  // ---------------------------------------------------------------- a deletion

  /** A user's deletion of an own conversation removes it, all its messages and the user's controls of it,
      and nothing else; any other deletion changes nothing. */
  lemma DeleteRemovesAll(cfg: Config, s: System, c: ConversationId, u: UserId, after: System)
    requires after == Apply(cfg, s, Delete(c, u))
    ensures !(c in s.db.conversations && s.db.conversations[c].owner == u) ==> after == s
    ensures c in s.db.conversations && s.db.conversations[c].owner == u ==>
              && (forall q :: q in after.db.conversations <==> q in s.db.conversations && q != c)
              && (forall q :: q in after.db.messages <==> q in s.db.messages && s.db.messages[q].conversation != c)
              && (forall q :: q in after.db.controls <==>
                    q in s.db.controls && !(s.db.controls[q].conversation == c && s.db.controls[q].owner == Some(u)))
    ensures forall q :: q in after.db.conversations ==> after.db.conversations[q] == s.db.conversations[q]
    ensures forall q :: q in after.db.messages ==> after.db.messages[q] == s.db.messages[q]
    ensures forall q :: q in after.db.controls ==> after.db.controls[q] == s.db.controls[q]
  {
    DeletedTables(s.db, c, u, after.db);
  }

  lemma DeletedTables(db: Db, c: ConversationId, u: UserId, after: Db)
    requires after == DeleteConversation(db, c, u)
    ensures if c in db.conversations && db.conversations[c].owner == u then
              && after.controls == db.controls - OwnedControls(db.controls, c, u)
              && after.conversations == db.conversations - {c}
              && after.messages == WithoutConversation(db.messages, c)
            else after == db
  {}

  // ---------------------------------------------------------------- a retention sweep

  /** The row as a sweep leaves it: a day after the run's end the answer and the events are gone. */
  function SweptRow(run: Run, now: Time): (row: Run) {
    if run.status in {Completed, Failed, Cancelled, Terminated} && run.updatedAt + 86_400_000_000 <= now
    then run.(answer := None, log := [])
    else run
  }

  /** The run is over and its time has come. */
  predicate Lapsed(run: Run, now: Time) {
    run.status in {Completed, Failed, Cancelled, Terminated} && run.expiresAt <= now
  }

  /** A sweep removes exactly the lapsed runs, with the controls of their messages, and empties exactly the
      runs that ended a day before. */
  lemma SweepRemovesLapsed(cfg: Config, s: System, now: Time, after: System)
    requires after == Apply(cfg, s, SweepRuns(now))
    ensures forall r :: r in after.db.runs <==> r in s.db.runs && !Lapsed(s.db.runs[r], now)
    ensures forall r :: r in after.db.runs ==> after.db.runs[r] == SweptRow(s.db.runs[r], now)
    ensures forall m :: m in after.db.controls <==>
                        m in s.db.controls && forall r :: r in s.db.runs && Lapsed(s.db.runs[r], now) ==>
                                                s.db.runs[r].message != m
    ensures forall m :: m in after.db.controls ==> after.db.controls[m] == s.db.controls[m]
    ensures after.db.messages == s.db.messages && after.db.conversations == s.db.conversations
            && after.db.ledger == s.db.ledger && after.db.counters == s.db.counters
  {
    forall r | r in s.db.runs
      ensures Expired(s.db.runs[r], now) <==> Lapsed(s.db.runs[r], now)
      ensures Scrubbed(s.db.runs[r], now) == SweptRow(s.db.runs[r], now) {}
    SweptControls(s.db, now, after.db);
  }

  lemma SweptControls(db: Db, now: Time, after: Db)
    requires after == PurgeRuns(db, now)
    ensures forall m :: m in after.controls <==>
                        m in db.controls && forall r :: r in db.runs && Expired(db.runs[r], now) ==>
                                              db.runs[r].message != m
    ensures forall m :: m in after.controls ==> after.controls[m] == db.controls[m]
    ensures after.messages == db.messages && after.conversations == db.conversations
            && after.ledger == db.ledger && after.counters == db.counters
  {
    var messages := set r | r in db.runs && Expired(db.runs[r], now) :: db.runs[r].message;
    assert after.controls == db.controls - messages;
  }
}
