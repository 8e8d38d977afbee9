/** Exactly when a request makes a run, and everything it stores when it does. */
module Requests {
  import opened Records
  import opened Transactions
  import opened Protocol
  import opened RunTransitions
  import opened AnswerRecords
  import Allowances

  // ---------------------------------------------------------------- who sends, and what stands in the way

  /** The row is the sender's: the user's for a user, the browser session's for a guest. */
  predicate SentBy(owner: Option<UserId>, session: string, req: Request) {
    match req.owner
    case Some(u) => owner == Some(u)
    case None => session == req.session
  }

  /** No stored run has the request's key and sender. */
  predicate NewKey(db: Db, req: Request) {
    forall q :: q in db.runs && db.runs[q].key == req.key ==> !SentBy(db.runs[q].owner, db.runs[q].session, req)
  }

  /** None of the sender's messages has ended the conversation. */
  predicate GateOpen(db: Db, req: Request) {
    forall m :: m in db.controls && db.controls[m].conversation == req.conversation
                && SentBy(db.controls[m].owner, db.controls[m].session, req) ==>
                  db.controls[m].action != TerminateAction
  }

  /** The position after the sender's last control in the conversation. */
  ghost predicate NextControlAt(db: Db, req: Request, n: nat) {
    && (forall m :: m in db.controls && db.controls[m].conversation == req.conversation
                    && SentBy(db.controls[m].owner, db.controls[m].session, req) ==>
                      db.controls[m].ordinal < n)
    && (n == 1 || exists m :: && m in db.controls && db.controls[m].conversation == req.conversation
                              && SentBy(db.controls[m].owner, db.controls[m].session, req)
                              && db.controls[m].ordinal + 1 == n)
  }

  /** The stored conversation is the user's and does not hold another message under the same identifier; a
      new one brings messages that are stored nowhere and are all different. */
  predicate Welcome(db: Db, u: UserId, req: Request) {
    if req.conversation in db.conversations then
      && db.conversations[req.conversation].owner == u
      && (req.message in db.messages && db.messages[req.message].conversation == req.conversation ==>
            db.messages[req.message].role == User && db.messages[req.message].content == req.content)
    else
      && (forall i :: 0 <= i < |req.history| ==> req.history[i].id !in db.messages)
      && (forall i, j :: 0 <= i < j < |req.history| ==> req.history[i].id != req.history[j].id)
  }

  /** The identifiers and the position are free. */
  predicate Free(db: Db, r: RunId, req: Request, ordinal: nat) {
    && r !in db.runs && (req.owner.Some? ==> r !in db.ledger) && req.message !in db.controls
    && (forall m :: m in db.controls && db.controls[m].conversation == req.conversation ==>
          db.controls[m].ordinal != ordinal)
    && (forall q :: q in db.runs && db.runs[q].session == req.session ==> db.runs[q].key != req.key)
  }

  lemma SenderIs(run: Run, c: Control, req: Request)
    ensures SameRequest(run, req) <==> run.key == req.key && SentBy(run.owner, run.session, req)
    ensures OwnControl(c, req) <==> c.conversation == req.conversation && SentBy(c.owner, c.session, req)
  {}

  lemma GateIs(db: Db, req: Request)
    ensures Gated(db, req) <==> !GateOpen(db, req)
  {
    forall m | m in db.controls
      ensures OwnControl(db.controls[m], req) <==>
              db.controls[m].conversation == req.conversation
                  && SentBy(db.controls[m].owner, db.controls[m].session, req)
    {}
  }

  lemma KeyIs(db: Db, req: Request)
    ensures (exists q :: q in db.runs && SameRequest(db.runs[q], req)) <==> !NewKey(db, req)
  {
    forall q | q in db.runs
      ensures SameRequest(db.runs[q], req) <==>
              db.runs[q].key == req.key && SentBy(db.runs[q].owner, db.runs[q].session, req)
    {}
  }

  lemma OwnControls(db: Db, req: Request, m: MessageId)
    requires m in db.controls
    ensures OwnControl(db.controls[m], req) <==>
            db.controls[m].conversation == req.conversation && SentBy(db.controls[m].owner, db.controls[m].session, req)
  {}

  lemma NextControlIs(db: Db, req: Request)
    ensures NextControlAt(db, req, NextControl(db, req))
  {
    var ordinals := ControlOrdinals(db, req);
    var last := MaxOf(ordinals);
    forall m | m in db.controls && db.controls[m].conversation == req.conversation
               && SentBy(db.controls[m].owner, db.controls[m].session, req)
      ensures db.controls[m].ordinal < last + 1
    {
      OwnControls(db, req, m);
      assert db.controls[m].ordinal in ordinals;
    }
    if last != 0 {
      var m :| m in db.controls && OwnControl(db.controls[m], req) && db.controls[m].ordinal == last;
      OwnControls(db, req, m);
    }
  }

  lemma OneNextControl(db: Db, req: Request, a: nat, b: nat)
    requires NextControlAt(db, req, a) && NextControlAt(db, req, b)
    ensures a == b
  {}

  lemma FreeIs(db: Db, r: RunId, req: Request, ordinal: nat)
    ensures InsertConflict(db, r, req, ordinal) <==> !Free(db, r, req, ordinal)
  {}

  // ---------------------------------------------------------------- the conversation

  /** The uploaded history is stored at its positions, and nothing else is touched. */
  predicate HistoryStored(messages: map<MessageId, MessageRecord>, after: map<MessageId, MessageRecord>,
                          history: seq<HistoryMessage>, c: ConversationId, u: UserId) {
    && (forall i :: 0 <= i < |history| ==>
          && history[i].id in after
          && after[history[i].id] == MessageRecord(c, u, i + 1, history[i].role, history[i].content, Complete))
    && (forall m :: m in after ==> m in messages || exists i :: 0 <= i < |history| && history[i].id == m)
    && (forall m :: m in messages && (forall i :: 0 <= i < |history| ==> history[i].id != m) ==>
          m in after && after[m] == messages[m])
  }

  /** The user's message is stored last in the conversation, unless its identifier is taken. */
  ghost predicate MessageStored(messages: map<MessageId, MessageRecord>, after: map<MessageId, MessageRecord>,
                                u: UserId, req: Request) {
    if req.message in messages then after == messages
    else
      && req.message in after && after == messages[req.message := after[req.message]]
      && var m := after[req.message];
         && m.conversation == req.conversation && m.owner == u && m.role == User && m.content == req.content
         && m.state == Complete && NextFree(messages, req.conversation, m.ordinal)
  }

  /** What a user's request leaves of the conversations and their messages. */
  ghost predicate ConversationStored(db: Db, after: Db, u: UserId, req: Request, now: Time) {
    if req.conversation in db.conversations then
      var c := db.conversations[req.conversation];
      && after.conversations == db.conversations[req.conversation := Conversation(
                                  c.owner, c.title, c.titleGenerated, c.pinned, c.terminated, c.revision + 1, now)]
      && MessageStored(db.messages, after.messages, u, req)
    else
      && after.conversations == db.conversations[req.conversation := Conversation(
                                  u, if |req.content| <= 80 then req.content else req.content[..80], false, false,
                                  false, 2, now)]
      && exists ms :: HistoryStored(db.messages, ms, req.history, req.conversation, u)
                   && MessageStored(ms, after.messages, u, req)
  }

  lemma {:induction false} HistoryIs(messages: map<MessageId, MessageRecord>, history: seq<HistoryMessage>,
                                     c: ConversationId, u: UserId)
    requires DistinctIds(history)
    ensures HistoryStored(messages, HistoryRecords(messages, history, c, u), history, c, u)
  {
    if history != [] {
      var n := |history| - 1;
      var before, after := HistoryRecords(messages, history[..n], c, u), HistoryRecords(messages, history, c, u);
      HistoryIs(messages, history[..n], c, u);
      HistoryNext(messages, history, n, before, after, c, u);
    }
  }

  lemma HistoryNext(messages: map<MessageId, MessageRecord>, history: seq<HistoryMessage>, n: nat,
                    before: map<MessageId, MessageRecord>, after: map<MessageId, MessageRecord>, c: ConversationId,
                    u: UserId)
    requires n + 1 == |history| && DistinctIds(history) && HistoryStored(messages, before, history[..n], c, u)
    requires after == before[history[n].id := MessageRecord(c, u, n + 1, history[n].role, history[n].content, Complete)]
    ensures HistoryStored(messages, after, history, c, u)
  {
    forall i | 0 <= i < |history|
      ensures history[i].id in after
              && after[history[i].id] == MessageRecord(c, u, i + 1, history[i].role, history[i].content, Complete)
    {
      if i < n { assert history[..n][i] == history[i]; }
    }
    forall m | m in after ensures m in messages || exists i :: 0 <= i < |history| && history[i].id == m {
      if m != history[n].id && m !in messages {
        var i :| 0 <= i < n && history[..n][i].id == m;
        assert history[i].id == m;
      }
    }
    forall m | m in messages && (forall i :: 0 <= i < |history| ==> history[i].id != m)
      ensures m in after && after[m] == messages[m]
    {
      forall i | 0 <= i < n ensures history[..n][i].id != m { assert history[..n][i] == history[i]; }
    }
  }

  lemma WelcomeIs(db: Db, u: UserId, req: Request, now: Time)
    ensures Welcome(db, u, req) <==> Transactions.OpenConversation(db.conversations, db.messages, u, req, now).Entered?
  {
    if req.conversation !in db.conversations {
      if h: HistoryMessage :| h in req.history && h.id in db.messages {
        var i :| 0 <= i < |req.history| && req.history[i] == h;
        assert req.history[i].id in db.messages;
      } else {
        forall i | 0 <= i < |req.history| ensures req.history[i].id !in db.messages {
          assert req.history[i] in req.history;
        }
      }
    }
  }

  lemma EntersStored(db: Db, u: UserId, req: Request, now: Time)
    ensures Welcome(db, u, req) <==> EnterConversation(db.conversations, db.messages, u, req, now).Entered?
  {
    WelcomeIs(db, u, req, now);
  }

  lemma MessageIs(messages: map<MessageId, MessageRecord>, u: UserId, req: Request, after: map<MessageId,
                  MessageRecord>)
    requires after == if req.message in messages then messages
                      else messages[req.message := MessageRecord(req.conversation, u,
                             NextOrdinal(messages, req.conversation), User, req.content, Complete)]
    ensures MessageStored(messages, after, u, req)
  {
    NextOrdinalIsFree(messages, req.conversation);
  }

  lemma StoredConversationIs(db: Db, u: UserId, req: Request, now: Time, entry: Entry, after: Db)
    requires entry == EnterConversation(db.conversations, db.messages, u, req, now) && entry.Entered?
    requires after.conversations == entry.conversations && after.messages == entry.messages
    requires req.conversation in db.conversations
    ensures ConversationStored(db, after, u, req, now)
  {
    MessageIs(db.messages, u, req, after.messages);
  }

  lemma NewConversationIs(db: Db, u: UserId, req: Request, now: Time, entry: Entry, ms: map<MessageId, MessageRecord>,
                          after: Db)
    requires entry == EnterConversation(db.conversations, db.messages, u, req, now) && entry.Entered?
    requires after.conversations == entry.conversations && after.messages == entry.messages
    requires req.conversation !in db.conversations && DistinctIds(req.history)
    requires ms == HistoryRecords(db.messages, req.history, req.conversation, u)
    ensures ConversationStored(db, after, u, req, now)
  {
    HistoryIs(db.messages, req.history, req.conversation, u);
    MessageIs(ms, u, req, after.messages);
    assert HistoryStored(db.messages, ms, req.history, req.conversation, u);
  }

  lemma ConversationIs(db: Db, u: UserId, req: Request, now: Time, entry: Entry, after: Db)
    requires entry == EnterConversation(db.conversations, db.messages, u, req, now) && entry.Entered?
    requires after.conversations == entry.conversations && after.messages == entry.messages
    ensures ConversationStored(db, after, u, req, now)
  {
    if req.conversation in db.conversations {
      StoredConversationIs(db, u, req, now, entry, after);
    } else {
      NewConversationIs(db, u, req, now, entry, HistoryRecords(db.messages, req.history, req.conversation, u), after);
    }
  }

  // ---------------------------------------------------------------- the request as a whole

  /** Nothing refuses the request. */
  ghost predicate Accepts(cfg: Config, db: Db, r: RunId, req: Request, now: Time) {
    && NewKey(db, req) && GateOpen(db, req)
    && (req.owner.Some? ==>
          && Welcome(db, req.owner.value, req)
          && Allowances.VerdictOn(cfg, db, req.owner.value, req.device, req.ip, now / 86_400_000_000) == Admit)
    && exists n :: NextControlAt(db, req, n) && Free(db, r, req, n)
  }

  lemma FreeAtNext(db: Db, r: RunId, req: Request)
    ensures !InsertConflict(db, r, req, NextControl(db, req)) <==>
            exists n :: NextControlAt(db, req, n) && Free(db, r, req, n)
  {
    var next := NextControl(db, req);
    NextControlIs(db, req);
    FreeIs(db, r, req, next);
    if n: nat :| NextControlAt(db, req, n) && Free(db, r, req, n) { OneNextControl(db, req, n, next); }
  }

  lemma UserCreateIff(cfg: Config, db: Db, r: RunId, u: UserId, req: Request, ordinal: nat, now: Time)
    requires req.owner == Some(u)
    ensures CreateForUser(cfg, db, r, u, req, ordinal, now).1.Created? <==>
            Welcome(db, u, req) && !InsertConflict(db, r, req, ordinal)
            && Allowances.VerdictOn(cfg, db, u, req.device, req.ip, now / 86_400_000_000) == Admit
  {
    EntersStored(db, u, req, now);
    Allowances.VerdictIs(cfg, db, u, req.device, req.ip, now);
  }

  lemma NewCreateIff(cfg: Config, db: Db, r: RunId, req: Request, now: Time)
    ensures CreateNew(cfg, db, r, req, now).1.Created? <==>
            && !InsertConflict(db, r, req, NextControl(db, req))
            && (req.owner.Some? ==>
                  && Welcome(db, req.owner.value, req)
                  && Allowances.VerdictOn(cfg, db, req.owner.value, req.device, req.ip, now / 86_400_000_000) == Admit)
  {
    if req.owner.Some? { UserCreateIff(cfg, db, r, req.owner.value, req, NextControl(db, req), now); }
  }

  lemma CreatedIff(cfg: Config, db: Db, r: RunId, req: Request, now: Time)
    ensures CreateRun(cfg, db, r, req, now).1.Created? <==> Accepts(cfg, db, r, req, now)
  {
    KeyIs(db, req);
    GateIs(db, req);
    FreeAtNext(db, r, req);
    NewCreateIff(cfg, db, r, req, now);
  }

  lemma UserCreateStores(cfg: Config, db: Db, r: RunId, u: UserId, req: Request, ordinal: nat, now: Time, after: Db)
    requires CreateForUser(cfg, db, r, u, req, ordinal, now) == (after, Created)
    ensures ConversationStored(db, after, u, req, now)
    ensures after.controls ==
            db.controls[req.message := Control(req.conversation, req.session, req.owner, ordinal, Pending)]
  {
    ConversationIs(db, u, req, now, EnterConversation(db.conversations, db.messages, u, req, now), after);
  }

  lemma NewCreateStores(cfg: Config, db: Db, r: RunId, req: Request, now: Time, after: Db)
    requires CreateNew(cfg, db, r, req, now) == (after, Created)
    ensures req.owner.Some? ==> ConversationStored(db, after, req.owner.value, req, now)
    ensures req.owner.None? ==> after.conversations == db.conversations && after.messages == db.messages
    ensures after.controls ==
            db.controls[req.message :=
              Control(req.conversation, req.session, req.owner, NextControl(db, req), Pending)]
  {
    if req.owner.Some? { UserCreateStores(cfg, db, r, req.owner.value, req, NextControl(db, req), now, after); }
  }

  /** What a request that makes a run stores beside the run and its unit. */
  ghost predicate RequestStored(db: Db, after: Db, req: Request, now: Time) {
    && (match req.owner
        case Some(u) => ConversationStored(db, after, u, req, now)
        case None => after.conversations == db.conversations && after.messages == db.messages)
    && req.message in after.controls && after.controls == db.controls[req.message := after.controls[req.message]]
    && var c := after.controls[req.message];
       && c.conversation == req.conversation && c.session == req.session && c.owner == req.owner
       && c.action == Pending && NextControlAt(db, req, c.ordinal)
  }

  /** A request makes a run exactly when its key is new, its sender has not been shut out of the conversation,
      the conversation and the allowance of a user admit it, and every identifier is free; then the message,
      its control and the conversation are stored as the sender gave them. */
  lemma RequestIff(cfg: Config, s: System, r: RunId, req: Request, now: Time, after: System)
    requires after == Apply(cfg, s, Create(r, req, now))
    ensures after != s <==> r !in s.used && Accepts(cfg, s.db, r, req, now)
    ensures after != s ==> RequestStored(s.db, after.db, req, now)
  {
    CreatedIff(cfg, s.db, r, req, now);
    if r !in s.used && Accepts(cfg, s.db, r, req, now) {
      assert r in after.used;
      CreatedIsNew(cfg, s.db, r, req, now);
      NewCreateStores(cfg, s.db, r, req, now, after.db);
      NextControlIs(s.db, req);
    }
  }

  lemma CreatedIsNew(cfg: Config, db: Db, r: RunId, req: Request, now: Time)
    requires CreateRun(cfg, db, r, req, now).1.Created?
    ensures CreateRun(cfg, db, r, req, now) == CreateNew(cfg, db, r, req, now)
  {}

  /** A stored run with the request's key and sender is the one that is returned, whatever else is true. */
  lemma RetryFindsOwnRun(cfg: Config, db: Db, r: RunId, req: Request, now: Time)
    requires !NewKey(db, req)
    ensures var (after, outcome) := CreateRun(cfg, db, r, req, now);
            && after == db && outcome.Existing? && outcome.run in db.runs
            && db.runs[outcome.run].key == req.key
            && SentBy(db.runs[outcome.run].owner, db.runs[outcome.run].session, req)
  {
    KeyIs(db, req);
  }
}
