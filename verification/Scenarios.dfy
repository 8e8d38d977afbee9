/** Histories from an empty installation that reach the states in which a promise of the service fails. */
module Scenarios {
  import opened Records
  import opened Transactions
  import opened Protocol
  import opened RunInvariants
  import opened RunTransitions
  import opened ChargeSafety
  import opened QuotaSafety
  import opened TerminationGate
  import Client
  import Agreement
  import Stream
  import Screen
  import Outcomes

  const USER: UserId := "u"
  const CHAT: ConversationId := "c"
  const WORKER: WorkerId := "w"
  const NOW: Time := 0

  /** The user's account is there, active, and without a limit of its own. */
  predicate Ready(accounts: map<UserId, Account>) {
    USER in accounts && accounts[USER] == Account(true, None)
  }

  /** Any settings that let one user have two unfinished runs and two units a day. */
  predicate RoomForTwo(cfg: Config) {
    ValidConfig(cfg) && cfg.maxConcurrent >= 2 && cfg.baseLimit >= 2 && cfg.serviceLimit >= 2
  }

  function Ask(m: MessageId, key: string): (req: Request) {
    Request(CHAT, m, Words("Hello."), [], Some(USER), "s", key, None, None)
  }

  lemma {:induction false} RunSplit(cfg: Config, s: System, a: seq<Step>, b: seq<Step>)
    ensures Protocol.Run(cfg, s, a + b) == Protocol.Run(cfg, Protocol.Run(cfg, s, a), b)
  {
    if b == [] {
      assert a + b == a;
    } else {
      var most := b[..|b| - 1];
      RunSplit(cfg, s, a, most);
      assert (a + b)[..|a + b| - 1] == a + most;
    }
  }

  lemma RunOne(cfg: Config, s: System, step: Step)
    ensures Protocol.Run(cfg, s, [step]) == Apply(cfg, s, step)
  {
    assert [step][..0] == [];
  }

  /** One step after a history. */
  lemma RunNext(cfg: Config, s: System, steps: seq<Step>, step: Step, before: System, after: System)
    requires before == Protocol.Run(cfg, s, steps) && after == Apply(cfg, before, step)
    ensures after == Protocol.Run(cfg, s, steps + [step])
  {
    RunSplit(cfg, s, steps, [step]);
    RunOne(cfg, before, step);
  }

  // ---------------------------------------------------------------- a create that succeeds

  /** At most one earlier run, with its unit, and the chat, if stored, is the user's. */
  ghost predicate Room(db: Db) {
    && Ready(db.accounts) && db.grants == map[]
    && |db.runs.Keys| <= 1 && |db.ledger.Keys| <= 1 && Count(db.counters, ServiceKey(Day(NOW))) <= 1
    && (if CHAT in db.conversations then db.conversations[CHAT].owner == USER else db.messages == map[])
  }

  /** Nothing stored gets in the way of this message. */
  ghost predicate Free(db: Db, r: RunId, m: MessageId, key: string) {
    && r !in db.runs && r !in db.ledger && m !in db.controls && m !in db.messages
    && (forall q :: q in db.runs ==> db.runs[q].key != key)
    && (forall q :: q in db.controls ==>
          db.controls[q].owner == Some(USER) && db.controls[q].conversation == CHAT && db.controls[q].action == Pending)
  }

  lemma RoomAdmits(cfg: Config, db: Db)
    requires RoomForTwo(cfg) && Room(db)
    ensures Assess(cfg, db, USER, None, None, NOW) == Admit
  {
    SubsetCount(LiveOf(db.ledger, USER, Day(NOW)), db.ledger.Keys);
    SubsetCount(ActiveRuns(db.runs, USER), db.runs.Keys);
    assert SignalKeys(None, None, Day(NOW)) == {};
  }

  lemma NextControlIsNew(db: Db, r: RunId, m: MessageId, key: string, ordinal: nat)
    requires Free(db, r, m, key) && ordinal == NextControl(db, Ask(m, key))
    ensures forall q :: q in db.controls ==> db.controls[q].ordinal < ordinal
  {
    forall q | q in db.controls ensures db.controls[q].ordinal < ordinal {
      assert db.controls[q].ordinal in ControlOrdinals(db, Ask(m, key));
    }
  }

  lemma ChatIsOpen(db: Db, r: RunId, m: MessageId, key: string, entry: Entry)
    requires Room(db) && Free(db, r, m, key)
             && entry == OpenConversation(db.conversations, db.messages, USER, Ask(m, key), NOW)
    ensures entry.Entered? && entry.messages == db.messages
    ensures CHAT in entry.conversations && entry.conversations[CHAT].owner == USER
  {
    assert Ask(m, key).history == [];
  }

  lemma EntryAddsMessage(db: Db, req: Request, entry: Entry, e: Entry)
    requires entry == OpenConversation(db.conversations, db.messages, USER, req, NOW)
    requires e == EnterConversation(db.conversations, db.messages, USER, req, NOW)
    requires entry.Entered? && entry.messages == db.messages && req.message !in db.messages
    requires req.conversation in entry.conversations && entry.conversations[req.conversation].owner == USER
    ensures e.Entered? && req.conversation in e.conversations && e.conversations[req.conversation].owner == USER
    ensures req.message in e.messages && e.messages == db.messages[req.message := e.messages[req.message]]
    ensures e.messages[req.message].owner == USER && e.messages[req.message].conversation == req.conversation
  {}

  lemma ChatOpens(db: Db, r: RunId, m: MessageId, key: string, entry: Entry, e: Entry)
    requires Room(db) && Free(db, r, m, key)
             && entry == OpenConversation(db.conversations, db.messages, USER, Ask(m, key), NOW)
    requires e == EnterConversation(db.conversations, db.messages, USER, Ask(m, key), NOW)
    ensures e.Entered? && CHAT in e.conversations && e.conversations[CHAT].owner == USER
    ensures m in e.messages && e.messages[m].owner == USER && e.messages[m].conversation == CHAT
    ensures e.messages.Keys == db.messages.Keys + {m}
  {
    ChatIsOpen(db, r, m, key, entry);
    EntryAddsMessage(db, Ask(m, key), entry, e);
  }

  /** The message and its control, after all others, in the user's chat. */
  predicate Written(db: Db, after: Db, m: MessageId) {
    && m in after.controls && after.controls == db.controls[m := after.controls[m]]
    && after.controls[m].owner == Some(USER) && after.controls[m].conversation == CHAT
    && after.controls[m].action == Pending
    && (forall q :: q in db.controls ==> db.controls[q].ordinal < after.controls[m].ordinal)
    && CHAT in after.conversations && after.conversations[CHAT].owner == USER
    && m in after.messages && after.messages[m].owner == USER && after.messages[m].conversation == CHAT
    && after.messages.Keys == db.messages.Keys + {m}
  }

  /** The unit in its counter; nothing else of the quota differs. */
  predicate Counted(db: Db, after: Db) {
    && after.counters == Increment(db.counters, {ServiceKey(Day(NOW))})
    && after.accounts == db.accounts && after.grants == db.grants
  }

  /** What a create leaves. */
  predicate Asked(cfg: Config, db: Db, after: Db, r: RunId, m: MessageId, key: string) {
    && after.runs == db.runs[r := NewRun(cfg, Ask(m, key), NOW)]
    && after.ledger == db.ledger[r := Reservation(Ask(m, key), NOW)]
    && Counted(db, after) && Written(db, after, m)
  }

  lemma AskIsGranted(cfg: Config, db: Db, r: RunId, m: MessageId, key: string, after: Db, outcome: Outcome)
    requires RoomForTwo(cfg) && Room(db) && Free(db, r, m, key)
    requires (after, outcome) == CreateForUser(cfg, db, r, USER, Ask(m, key), NextControl(db, Ask(m, key)), NOW)
    ensures outcome == Created && Asked(cfg, db, after, r, m, key)
  {
    var ordinal := NextControl(db, Ask(m, key));
    var e := EnterConversation(db.conversations, db.messages, USER, Ask(m, key), NOW);
    RoomAdmits(cfg, db);
    ChatOpens(db, r, m, key, OpenConversation(db.conversations, db.messages, USER, Ask(m, key), NOW), e);
    NextControlIsNew(db, r, m, key, ordinal);
    NoConflict(db, r, m, key, ordinal);
    InsertedIsAsked(cfg, db, db.(conversations := e.conversations, messages := e.messages), r, m, key, ordinal, after);
  }

  lemma NoConflict(db: Db, r: RunId, m: MessageId, key: string, ordinal: nat)
    requires Free(db, r, m, key) && forall q :: q in db.controls ==> db.controls[q].ordinal < ordinal
    ensures !InsertConflict(db, r, Ask(m, key), ordinal)
  {}

  lemma InsertedIsAsked(cfg: Config, db: Db, entered: Db, r: RunId, m: MessageId, key: string, ordinal: nat,
                        after: Db)
    requires entered == db.(conversations := entered.conversations, messages := entered.messages)
    requires after == InsertRun(cfg, Reserve(entered, USER, r, None, None, NOW), r, Ask(m, key), ordinal, NOW)
    requires forall q :: q in db.controls ==> db.controls[q].ordinal < ordinal
    requires CHAT in entered.conversations && entered.conversations[CHAT].owner == USER
    requires m in entered.messages && entered.messages[m].owner == USER && entered.messages[m].conversation == CHAT
    requires entered.messages.Keys == db.messages.Keys + {m}
    ensures Asked(cfg, db, after, r, m, key)
  {}

  lemma AskStep(cfg: Config, s: System, r: RunId, m: MessageId, key: string, after: System)
    requires RoomForTwo(cfg) && Room(s.db) && Free(s.db, r, m, key) && r !in s.used
    requires after == Apply(cfg, s, Create(r, Ask(m, key), NOW))
    ensures after == s.(db := after.db, used := s.used + {r}) && Asked(cfg, s.db, after.db, r, m, key)
  {
    var (db, outcome) := CreateForUser(cfg, s.db, r, USER, Ask(m, key), NextControl(s.db, Ask(m, key)), NOW);
    AskIsGranted(cfg, s.db, r, m, key, db, outcome);
    assert !Gated(s.db, Ask(m, key));
    assert CreateRun(cfg, s.db, r, Ask(m, key), NOW) == (db, Created);
  }

  // ---------------------------------------------------------------- a worker that starts a run

  /** The row of a run that has been claimed, begun and announced. */
  function StartedRow(cfg: Config, run: Run): (started: Run) {
    AppendEvents(ClaimedRow(cfg, run, WORKER, NOW).(status := Working, updatedAt := NOW),
                 [StatusChanged("thinking", "Thinking", None)], NOW)
  }

  function Start(r: RunId, e: ExecId): (steps: seq<Step>) {
    [ClaimNext(e, WORKER, r, {}, NOW)] + [Begin(e, NOW)] + [ChargeRun(e)] + [AnnounceThinking(e, NOW)]
  }

  predicate Startable(cfg: Config, s: System, r: RunId, e: ExecId) {
    && r in s.db.runs && Claimable(cfg, s.db.runs[r], NOW) && e !in s.execs
    && s.db.runs[r].status == Status.Accepted
    && (forall q :: q in s.db.runs && q != r ==> !Claimable(cfg, s.db.runs[q], NOW))
  }

  lemma ClaimIt(cfg: Config, s: System, r: RunId, e: ExecId, after: System)
    requires Startable(cfg, s, r, e) && after == Apply(cfg, s, ClaimNext(e, WORKER, r, {}, NOW))
    ensures after == s.(db := s.db.(runs := s.db.runs[r := ClaimedRow(cfg, s.db.runs[r], WORKER, NOW)]),
                        execs := s.execs[e := Exec(r, WORKER, AtStart)])
  {
    assert SelectedForClaim(cfg, s.db, r, {}, NOW);
  }

  lemma BeginIt(cfg: Config, s: System, r: RunId, e: ExecId, after: System)
    requires e in s.execs && s.execs[e] == Exec(r, WORKER, AtStart) && CanStartWork(s.db, r)
    requires after == Apply(cfg, s, Begin(e, NOW))
    ensures after == s.(db := s.db.(runs := s.db.runs[r := s.db.runs[r].(status := Working, updatedAt := NOW)]),
                        execs := s.execs[e := Exec(r, WORKER, StatusSet)])
  {}

  lemma ChargeIt(cfg: Config, s: System, r: RunId, e: ExecId, after: System)
    requires e in s.execs && s.execs[e] == Exec(r, WORKER, StatusSet) && after == Apply(cfg, s, ChargeRun(e))
    ensures after == s.(db := s.db.(ledger := SetLedger(s.db.ledger, r, Charged)),
                        execs := s.execs[e := Exec(r, WORKER, ChargeDone)])
  {}

  lemma AnnounceIt(cfg: Config, s: System, r: RunId, e: ExecId, after: System)
    requires e in s.execs && s.execs[e] == Exec(r, WORKER, ChargeDone) && r in s.db.runs
    requires after == Apply(cfg, s, AnnounceThinking(e, NOW))
    ensures after == s.(db := AddEvent(s.db, r, StatusChanged("thinking", "Thinking", None), NOW),
                        execs := s.execs[e := Exec(r, WORKER, Answering)], checkpoints := s.checkpoints + {r})
  {}

  /** Four transactions later the execution is about to ask the provider. */
  predicate Started(cfg: Config, s: System, after: System, r: RunId, e: ExecId)
    requires r in s.db.runs
  {
    && after.db ==
        s.db.(runs := s.db.runs[r := StartedRow(cfg, s.db.runs[r])], ledger := SetLedger(s.db.ledger, r, Charged))
    && after.execs == s.execs[e := Exec(r, WORKER, Answering)] && after.used == s.used
  }

  lemma StartIt(cfg: Config, s: System, r: RunId, e: ExecId, after: System)
    requires Startable(cfg, s, r, e) && after == Protocol.Run(cfg, s, Start(r, e))
    ensures Started(cfg, s, after, r, e)
  {
    var s1 := Apply(cfg, s, ClaimNext(e, WORKER, r, {}, NOW));
    RunOne(cfg, s, ClaimNext(e, WORKER, r, {}, NOW));
    var s2 := Apply(cfg, s1, Begin(e, NOW));
    RunNext(cfg, s, [ClaimNext(e, WORKER, r, {}, NOW)], Begin(e, NOW), s1, s2);
    var s3 := Apply(cfg, s2, ChargeRun(e));
    RunNext(cfg, s, [ClaimNext(e, WORKER, r, {}, NOW)] + [Begin(e, NOW)], ChargeRun(e), s2, s3);
    RunNext(cfg, s, [ClaimNext(e, WORKER, r, {}, NOW)] + [Begin(e, NOW)] + [ChargeRun(e)], AnnounceThinking(e, NOW), s3,
            Apply(cfg, s3, AnnounceThinking(e, NOW)));
    StartStates(cfg, s, r, e, s1, s2, s3, after);
  }

  lemma StartStates(cfg: Config, s: System, r: RunId, e: ExecId, s1: System, s2: System, s3: System, after: System)
    requires Startable(cfg, s, r, e) && s1 == Apply(cfg, s, ClaimNext(e, WORKER, r, {}, NOW))
             && s2 == Apply(cfg, s1, Begin(e, NOW))
    requires s3 == Apply(cfg, s2, ChargeRun(e)) && after == Apply(cfg, s3, AnnounceThinking(e, NOW))
    ensures Started(cfg, s, after, r, e)
  {
    ClaimIt(cfg, s, r, e, s1);
    BeginIt(cfg, s1, r, e, s2);
    ChargeIt(cfg, s2, r, e, s3);
    AnnounceIt(cfg, s3, r, e, after);
    var dispatched := ClaimedRow(cfg, s.db.runs[r], WORKER, NOW);
    FourStates(s, r, e, dispatched, s1, s2, s3, after);
  }

  lemma FourStates(s: System, r: RunId, e: ExecId, run: Run, s1: System, s2: System, s3: System, after: System)
    requires r in s.db.runs && e !in s.execs
    requires s1 == s.(db := s.db.(runs := s.db.runs[r := run]), execs := s.execs[e := Exec(r, WORKER, AtStart)])
    requires s2 == s1.(db := s1.db.(runs := s1.db.runs[r := s1.db.runs[r].(status := Working, updatedAt := NOW)]),
                       execs := s1.execs[e := Exec(r, WORKER, StatusSet)])
    requires s3 ==
             s2.(db := s2.db.(ledger := SetLedger(s2.db.ledger, r, Charged)),
                 execs := s2.execs[e := Exec(r, WORKER, ChargeDone)])
    requires after == s3.(db := AddEvent(s3.db, r, StatusChanged("thinking", "Thinking", None), NOW),
                          execs := s3.execs[e := Exec(r, WORKER, Answering)], checkpoints := s3.checkpoints + {r})
    ensures var row :=
            AppendEvents(run.(status := Working, updatedAt := NOW), [StatusChanged("thinking", "Thinking", None)], NOW);
            after.db == s.db.(runs := s.db.runs[r := row], ledger := SetLedger(s.db.ledger, r, Charged))
    ensures after.execs == s.execs[e := Exec(r, WORKER, Answering)] && after.used == s.used
  {}

  // ---------------------------------------------------------------- from the request to the provider

  /** The first five transactions of a run. */
  function Opening(r: RunId, m: MessageId, key: string, e: ExecId): (steps: seq<Step>) {
    [Create(r, Ask(m, key), NOW)] + Start(r, e)
  }

  predicate Opened(cfg: Config, s: System, after: System, r: RunId, m: MessageId, key: string, e: ExecId) {
    && Counted(s.db, after.db) && Written(s.db, after.db, m)
    && after.db.runs == s.db.runs[r := StartedRow(cfg, NewRun(cfg, Ask(m, key), NOW))]
    && after.db.ledger.Keys == s.db.ledger.Keys + {r}
    && after.execs == s.execs[e := Exec(r, WORKER, Answering)] && after.used == s.used + {r}
  }

  lemma OpenIt(cfg: Config, s: System, r: RunId, m: MessageId, key: string, e: ExecId, after: System)
    requires RoomForTwo(cfg) && Room(s.db) && Free(s.db, r, m, key) && r !in s.used && e !in s.execs
    requires forall q :: q in s.db.runs ==> !Claimable(cfg, s.db.runs[q], NOW)
    requires after == Protocol.Run(cfg, s, Opening(r, m, key, e))
    ensures Opened(cfg, s, after, r, m, key, e)
  {
    var asked := Apply(cfg, s, Create(r, Ask(m, key), NOW));
    RunSplit(cfg, s, [Create(r, Ask(m, key), NOW)], Start(r, e));
    RunOne(cfg, s, Create(r, Ask(m, key), NOW));
    AskStep(cfg, s, r, m, key, asked);
    AskedIsStartable(cfg, s, r, m, key, e, asked);
    StartIt(cfg, asked, r, e, after);
    AskedThenStarted(cfg, s, r, m, key, e, asked, after);
  }

  lemma AskedIsStartable(cfg: Config, s: System, r: RunId, m: MessageId, key: string, e: ExecId, asked: System)
    requires RoomForTwo(cfg) && r !in s.db.runs && e !in s.execs
    requires forall q :: q in s.db.runs ==> !Claimable(cfg, s.db.runs[q], NOW)
    requires asked.execs == s.execs && asked.db.runs == s.db.runs[r := NewRun(cfg, Ask(m, key), NOW)]
    ensures Startable(cfg, asked, r, e)
  {}

  lemma AskedThenStarted(cfg: Config, s: System, r: RunId, m: MessageId, key: string, e: ExecId, asked: System,
                         after: System)
    requires r !in s.db.runs && asked == s.(db := asked.db, used := s.used + {r})
             && Asked(cfg, s.db, asked.db, r, m, key)
    requires Started(cfg, asked, after, r, e)
    ensures Opened(cfg, s, after, r, m, key, e)
  {}

  lemma FreshHasRoom(cfg: Config, accounts: map<UserId, Account>, r: RunId, m: MessageId, key: string)
    requires Ready(accounts)
    ensures Room(Fresh(accounts).db) && Free(Fresh(accounts).db, r, m, key)
  {}

  // ---------------------------------------------------------------- a run that terminates the conversation

  /** The execution `e` of the user's run `r` is about to answer message `m` of the stored chat. */
  predicate Answers(s: System, r: RunId, e: ExecId, m: MessageId) {
    && At(s, e, Answering) && s.execs[e].run == r && Unfinished(s.db, r)
    && s.db.runs[r].owner == Some(USER) && s.db.runs[r].conversation == CHAT && s.db.runs[r].message == m
    && CHAT in s.db.conversations && s.db.conversations[CHAT].owner == USER
  }

  lemma ConcludedDb(db: Db, r: RunId, turn: Turn, now: Time, after: Db)
    requires Unfinished(db, r) && OwnsConversation(db, db.runs[r]) && after == ConcludeRun(db, r, turn, now)
    ensures r in after.runs && after.runs == db.runs[r := after.runs[r]] && after.runs[r].message == db.runs[r].message
    ensures after.controls == SetAction(db.controls, db.runs[r].message, TurnAction(turn))
    ensures db.runs[r].conversation in after.conversations
    ensures turn.TerminateTurn? ==>
            after.conversations[db.runs[r].conversation].terminated && after.messages == db.messages
  {}

  lemma TerminateIt(cfg: Config, s: System, r: RunId, e: ExecId, m: MessageId, after: System)
    requires Answers(s, r, e, m) && m in s.db.controls
    requires s.db.controls[m].owner == Some(USER) && s.db.controls[m].conversation == CHAT
    requires after == Apply(cfg, s, Conclude(e, TerminateTurn, NOW))
    ensures after.execs == s.execs[e := s.execs[e].(place := Over)]
    ensures r in after.db.runs && after.db.runs == s.db.runs[r := after.db.runs[r]]
            && after.db.messages == s.db.messages
    ensures after.db.controls == s.db.controls[m := s.db.controls[m].(action := TerminateAction)]
    ensures Closed(after.db, m, CHAT, USER) && StoredTerminated(after.db, CHAT)
  {
    ConcludedDb(s.db, r, TerminateTurn, NOW, after.db);
  }

  /** The run just opened is the one its execution is about to answer. */
  lemma OpenedAnswers(cfg: Config, s: System, after: System, r: RunId, m: MessageId, key: string, e: ExecId)
    requires Opened(cfg, s, after, r, m, key, e)
    ensures Answers(after, r, e, m)
  {
    assert after.db.runs[r] == StartedRow(cfg, NewRun(cfg, Ask(m, key), NOW));
  }

  // ---------------------------------------------------------------- a message id used twice

  const M: MessageId := "m"

  /** The user edits the message while it is being answered, asks again under the same message id, and
      the second run terminates the conversation. */
  function ReusedMessage(): (steps: seq<Step>) {
    Opening("a", M, "1", 1) + [Edit(CHAT, M, Some(USER), "s", NOW)] + Opening("b", M, "2", 2) +
        [Conclude(2, TerminateTurn, NOW)]
  }

  const ANSWER := AnswerTurn(Words("Yes."), None, false)

  lemma AnswerIsValid()
    ensures ValidTurn(ANSWER)
  {
    assert ANSWER.text[3] == '.' as nat && Words(".!?)]}")[0] == '.' as nat;
    assert Stripped(ANSWER.text) == ANSWER.text;
  }

  /** Only message M, by the user in the chat, with its control. */
  predicate OneMessage(db: Db) {
    && M in db.controls && db.controls.Keys == {M} && db.controls[M].owner == Some(USER)
    && db.controls[M].conversation == CHAT
    && M in db.messages && db.messages[M].owner == USER && db.messages[M].conversation == CHAT
    && CHAT in db.conversations && db.conversations[CHAT].owner == USER
  }

  lemma EditClears(db: Db, after: Db)
    requires OneMessage(db) && after == EditMessage(db, CHAT, M, Some(USER), "s", NOW)
    ensures after.controls == map[] && M !in after.messages && OnlyWriting(db, after)
    ensures CHAT in after.conversations && after.conversations[CHAT].owner == USER
  {}

  lemma OpenedHasOne(cfg: Config, accounts: map<UserId, Account>, s: System)
    requires Ready(accounts) && Opened(cfg, Fresh(accounts), s, "a", M, "1", 1)
    ensures OneMessage(s.db) && s.db.runs == map["a" := StartedRow(cfg, NewRun(cfg, Ask(M, "1"), NOW))]
    ensures s.db.ledger.Keys == {"a"} && Count(s.db.counters, ServiceKey(Day(NOW))) == 1
    ensures Ready(s.db.accounts) && s.db.grants == map[]
    ensures s.execs == map[1 := Exec("a", WORKER, Answering)] && s.used == {"a"}
  {
    IncrementCounts(map[], {ServiceKey(Day(NOW))}, ServiceKey(Day(NOW)));
  }

  lemma EditKeepsRoom(cfg: Config, db: Db, after: Db)
    requires OnlyWriting(db, after) && db.runs == map["a" := StartedRow(cfg, NewRun(cfg, Ask(M, "1"), NOW))]
    requires db.ledger.Keys == {"a"} && Count(db.counters, ServiceKey(Day(NOW))) == 1 && Ready(db.accounts)
             && db.grants == map[]
    requires after.controls == map[] && M !in after.messages && CHAT in after.conversations
             && after.conversations[CHAT].owner == USER
    ensures Room(after) && Free(after, "b", M, "2")
  {
    assert db.runs.Keys == {"a"};
  }

  lemma EditLeavesRoom(cfg: Config, accounts: map<UserId, Account>, s: System, edited: System)
    requires Ready(accounts) && Opened(cfg, Fresh(accounts), s, "a", M, "1", 1)
             && edited == s.(db := EditMessage(s.db, CHAT, M, Some(USER), "s", NOW))
    ensures Room(edited.db) && Free(edited.db, "b", M, "2") && edited.used == {"a"}
    ensures edited.execs == map[1 := Exec("a", WORKER, Answering)]
    ensures edited.db.runs == map["a" := StartedRow(cfg, NewRun(cfg, Ask(M, "1"), NOW))]
  {
    OpenedHasOne(cfg, accounts, s);
    EditClears(s.db, edited.db);
    EditKeepsRoom(cfg, s.db, edited.db);
  }

  lemma StartedIsNotClaimable(cfg: Config, m: MessageId, key: string)
    requires ValidConfig(cfg)
    ensures !Claimable(cfg, StartedRow(cfg, NewRun(cfg, Ask(m, key), NOW)), NOW)
  {}

  /** After the second run has terminated the conversation, the first is still to be answered. */
  lemma SecondTerminates(cfg: Config, edited: System, both: System, closed: System)
    requires edited.execs == map[1 := Exec("a", WORKER, Answering)]
    requires edited.db.runs == map["a" := StartedRow(cfg, NewRun(cfg, Ask(M, "1"), NOW))]
    requires Opened(cfg, edited, both, "b", M, "2", 2) && closed == Apply(cfg, both, Conclude(2, TerminateTurn, NOW))
    ensures Closed(closed.db, M, CHAT, USER) && StoredTerminated(closed.db, CHAT)
    ensures At(closed, 1, Answering) && closed.execs[1].run == "a" && Unfinished(closed.db, "a")
            && closed.db.runs["a"].message == M
  {
    OpenedAnswers(cfg, edited, both, "b", M, "2", 2);
    TerminateIt(cfg, both, "b", 2, M, closed);
    FirstIsLeft(cfg, edited, both, closed);
  }

  lemma FirstIsLeft(cfg: Config, edited: System, both: System, closed: System)
    requires edited.execs == map[1 := Exec("a", WORKER, Answering)]
    requires edited.db.runs == map["a" := StartedRow(cfg, NewRun(cfg, Ask(M, "1"), NOW))]
    requires Opened(cfg, edited, both, "b", M, "2", 2)
    requires closed.execs == both.execs[2 := both.execs[2].(place := Over)]
    requires "b" in closed.db.runs && closed.db.runs == both.db.runs["b" := closed.db.runs["b"]]
    ensures At(closed, 1, Answering) && closed.execs[1].run == "a" && Unfinished(closed.db, "a")
            && closed.db.runs["a"].message == M
  {}

  lemma FirstOpens(cfg: Config, accounts: map<UserId, Account>, s: System, first: System)
    requires Ready(accounts) && RoomForTwo(cfg) && s == Fresh(accounts)
             && first == Protocol.Run(cfg, s, Opening("a", M, "1", 1))
    ensures Opened(cfg, s, first, "a", M, "1", 1)
  {
    FreshHasRoom(cfg, accounts, "a", M, "1");
    OpenIt(cfg, s, "a", M, "1", 1, first);
  }

  lemma EditStep(cfg: Config, s: System, edited: System)
    requires edited == Apply(cfg, s, Edit(CHAT, M, Some(USER), "s", NOW))
    ensures edited == s.(db := EditMessage(s.db, CHAT, M, Some(USER), "s", NOW))
  {}

  lemma SecondOpens(cfg: Config, edited: System, second: System)
    requires RoomForTwo(cfg) && Room(edited.db) && Free(edited.db, "b", M, "2") && edited.used == {"a"}
    requires edited.execs == map[1 := Exec("a", WORKER, Answering)]
    requires edited.db.runs == map["a" := StartedRow(cfg, NewRun(cfg, Ask(M, "1"), NOW))]
    requires second == Protocol.Run(cfg, edited, Opening("b", M, "2", 2))
    ensures Opened(cfg, edited, second, "b", M, "2", 2)
  {
    StartedIsNotClaimable(cfg, M, "1");
    OpenIt(cfg, edited, "b", M, "2", 2, second);
  }

  lemma ReusedMessageCloses(cfg: Config, accounts: map<UserId, Account>, first: System, edited: System,
                            second: System, closed: System)
    requires Ready(accounts) && RoomForTwo(cfg) && first == Protocol.Run(cfg, Fresh(accounts), Opening("a", M, "1", 1))
    requires edited == Apply(cfg, first, Edit(CHAT, M, Some(USER), "s", NOW))
    requires second == Protocol.Run(cfg, edited, Opening("b", M, "2", 2))
             && closed == Apply(cfg, second, Conclude(2, TerminateTurn, NOW))
    ensures Closed(closed.db, M, CHAT, USER) && StoredTerminated(closed.db, CHAT)
    ensures At(closed, 1, Answering) && closed.execs[1].run == "a" && Unfinished(closed.db, "a")
            && closed.db.runs["a"].message == M
  {
    FirstOpens(cfg, accounts, Fresh(accounts), first);
    EditStep(cfg, first, edited);
    EditLeavesRoom(cfg, accounts, first, edited);
    SecondOpens(cfg, edited, second);
    SecondTerminates(cfg, edited, second, closed);
  }

  lemma ReusedMessagePath(cfg: Config, accounts: map<UserId, Account>, first: System, edited: System, second: System,
                          closed: System)
    requires Ready(accounts) && first == Protocol.Run(cfg, Fresh(accounts), Opening("a", M, "1", 1))
    requires edited == Apply(cfg, first, Edit(CHAT, M, Some(USER), "s", NOW))
    requires second == Protocol.Run(cfg, edited, Opening("b", M, "2", 2))
             && closed == Apply(cfg, second, Conclude(2, TerminateTurn, NOW))
    ensures closed == Protocol.Run(cfg, Fresh(accounts), ReusedMessage())
  {
    var before := Opening("a", M, "1", 1) + [Edit(CHAT, M, Some(USER), "s", NOW)];
    RunNext(cfg, Fresh(accounts), Opening("a", M, "1", 1), Edit(CHAT, M, Some(USER), "s", NOW), first, edited);
    RunSplit(cfg, Fresh(accounts), before, Opening("b", M, "2", 2));
    RunNext(cfg, Fresh(accounts), before + Opening("b", M, "2", 2), Conclude(2, TerminateTurn, NOW), second, closed);
  }

  lemma AnswerReopens(cfg: Config, closed: System, after: System)
    requires Closed(closed.db, M, CHAT, USER) && after == Apply(cfg, closed, Conclude(1, ANSWER, NOW))
    requires At(closed, 1, Answering) && closed.execs[1].run == "a" && Unfinished(closed.db, "a")
             && closed.db.runs["a"].message == M
    ensures !Closed(after.db, M, CHAT, USER)
  {
    AnswerIsValid();
    ClosedUnlessReopened(cfg, closed, Conclude(1, ANSWER, NOW), after, M, CHAT, USER);
  }

  /** The gate does not hold against a message id used twice: from an empty installation, under any
      settings with room for two, this history closes it and the first run's ordinary answer reopens it. */
  lemma ReusedMessageReopens(cfg: Config, accounts: map<UserId, Account>, s: System, after: System)
    requires Ready(accounts) && RoomForTwo(cfg) && s == Protocol.Run(cfg, Fresh(accounts), ReusedMessage())
    requires after == Apply(cfg, s, Conclude(1, ANSWER, NOW))
    ensures Closed(s.db, M, CHAT, USER) && !Closed(after.db, M, CHAT, USER)
  {
    var first := Protocol.Run(cfg, Fresh(accounts), Opening("a", M, "1", 1));
    var edited := Apply(cfg, first, Edit(CHAT, M, Some(USER), "s", NOW));
    var second := Protocol.Run(cfg, edited, Opening("b", M, "2", 2));
    var closed := Apply(cfg, second, Conclude(2, TerminateTurn, NOW));
    ReusedMessagePath(cfg, accounts, first, edited, second, closed);
    ReusedMessageCloses(cfg, accounts, first, edited, second, closed);
    AnswerReopens(cfg, closed, after);
  }

  // ---------------------------------------------------------------- an edit after the terminated message

  const LATER: MessageId := "n"

  /** A second message is asked while the first is being answered; the first then terminates. */
  function LaterMessage(): (steps: seq<Step>) {
    Opening("a", M, "1", 1) + [Create("b", Ask(LATER, "2"), NOW)] + [Conclude(1, TerminateTurn, NOW)]
  }

  lemma FirstLeavesRoom(cfg: Config, accounts: map<UserId, Account>, first: System)
    requires Ready(accounts) && Opened(cfg, Fresh(accounts), first, "a", M, "1", 1)
    ensures Room(first.db) && Free(first.db, "b", LATER, "2") && first.used == {"a"}
  {
    OpenedHasOne(cfg, accounts, first);
    assert first.db.runs.Keys == {"a"};
  }

  lemma SecondIsAsked(cfg: Config, accounts: map<UserId, Account>, s: System, first: System, asked: System)
    requires Ready(accounts) && RoomForTwo(cfg) && s == Fresh(accounts)
             && first == Protocol.Run(cfg, s, Opening("a", M, "1", 1))
    requires asked == Apply(cfg, first, Create("b", Ask(LATER, "2"), NOW))
    ensures Opened(cfg, s, first, "a", M, "1", 1) && Asked(cfg, first.db, asked.db, "b", LATER, "2")
            && asked.execs == first.execs
  {
    FirstOpens(cfg, accounts, s, first);
    FirstLeavesRoom(cfg, accounts, first);
    AskStep(cfg, first, "b", LATER, "2", asked);
  }

  lemma FirstStillAnswers(cfg: Config, accounts: map<UserId, Account>, first: System, asked: System)
    requires Ready(accounts) && Opened(cfg, Fresh(accounts), first, "a", M, "1", 1)
             && Asked(cfg, first.db, asked.db, "b", LATER, "2")
    requires asked.execs == first.execs
    ensures Answers(asked, "a", 1, M) && M in asked.db.controls && LATER in asked.db.controls
            && LATER in asked.db.messages
    ensures asked.db.controls[M].owner == Some(USER) && asked.db.controls[M].conversation == CHAT
    ensures asked.db.controls[LATER].owner == Some(USER) && asked.db.controls[LATER].conversation == CHAT
    ensures asked.db.controls[M].ordinal < asked.db.controls[LATER].ordinal && asked.db.messages[LATER].owner == USER
  {
    OpenedAnswers(cfg, Fresh(accounts), first, "a", M, "1", 1);
  }

  lemma LaterMessageStates(cfg: Config, accounts: map<UserId, Account>, s: System, first: System, asked: System,
                           closed: System)
    requires Ready(accounts) && RoomForTwo(cfg) && s == Fresh(accounts)
             && first == Protocol.Run(cfg, s, Opening("a", M, "1", 1))
    requires asked == Apply(cfg, first, Create("b", Ask(LATER, "2"), NOW))
             && closed == Apply(cfg, asked, Conclude(1, TerminateTurn, NOW))
    ensures Closed(closed.db, M, CHAT, USER) && StoredTerminated(closed.db, CHAT)
    ensures LATER in closed.db.controls && closed.db.controls[M].ordinal < closed.db.controls[LATER].ordinal
    ensures OwnerEdits(closed.db, Edit(CHAT, LATER, Some(USER), "s", NOW), CHAT, USER)
  {
    SecondIsAsked(cfg, accounts, s, first, asked);
    FirstStillAnswers(cfg, accounts, first, asked);
    TerminateIt(cfg, asked, "a", 1, M, closed);
  }

  lemma LaterMessagePath(cfg: Config, s: System, first: System, asked: System, closed: System)
    requires first == Protocol.Run(cfg, s, Opening("a", M, "1", 1))
    requires asked == Apply(cfg, first, Create("b", Ask(LATER, "2"), NOW))
             && closed == Apply(cfg, asked, Conclude(1, TerminateTurn, NOW))
    ensures closed == Protocol.Run(cfg, s, LaterMessage())
  {
    RunNext(cfg, s, Opening("a", M, "1", 1), Create("b", Ask(LATER, "2"), NOW), first, asked);
    RunNext(cfg, s, Opening("a", M, "1", 1) + [Create("b", Ask(LATER, "2"), NOW)], Conclude(1, TerminateTurn, NOW),
            asked, closed);
  }

  lemma EditParts(cfg: Config, closed: System, after: System)
    requires ControlsHoused(closed.db) && Closed(closed.db, M, CHAT, USER) && StoredTerminated(closed.db, CHAT)
    requires LATER in closed.db.controls && closed.db.controls[M].ordinal < closed.db.controls[LATER].ordinal
    requires OwnerEdits(closed.db, Edit(CHAT, LATER, Some(USER), "s", NOW), CHAT, USER)
    requires after == Apply(cfg, closed, Edit(CHAT, LATER, Some(USER), "s", NOW))
    ensures Closed(after.db, M, CHAT, USER) && CHAT in after.db.conversations
            && !after.db.conversations[CHAT].terminated
  {
    GateAndRecordPart(cfg, closed, Edit(CHAT, LATER, Some(USER), "s", NOW), after, M, CHAT, USER);
    TerminatedRecordUnlessEdited(cfg, closed, Edit(CHAT, LATER, Some(USER), "s", NOW), after, M, CHAT, USER);
  }

  /** The stored record does not stay with the gate: after this history from an empty installation both
      say terminated, and an edit of the later message leaves the gate closed and the record open. */
  lemma LaterEditOpensRecord(cfg: Config, accounts: map<UserId, Account>, s: System, after: System)
    requires Ready(accounts) && RoomForTwo(cfg) && s == Protocol.Run(cfg, Fresh(accounts), LaterMessage())
    requires after == Apply(cfg, s, Edit(CHAT, LATER, Some(USER), "s", NOW))
    ensures Closed(s.db, M, CHAT, USER) && StoredTerminated(s.db, CHAT)
    ensures Closed(after.db, M, CHAT, USER) && CHAT in after.db.conversations
            && !after.db.conversations[CHAT].terminated
  {
    var first := Protocol.Run(cfg, Fresh(accounts), Opening("a", M, "1", 1));
    var asked := Apply(cfg, first, Create("b", Ask(LATER, "2"), NOW));
    var closed := Apply(cfg, asked, Conclude(1, TerminateTurn, NOW));
    LaterMessagePath(cfg, Fresh(accounts), first, asked, closed);
    LaterMessageStates(cfg, accounts, Fresh(accounts), first, asked, closed);
    HousedAlways(cfg, accounts, LaterMessage(), s);
    EditParts(cfg, closed, after);
  }

  // ---------------------------------------------------------------- a snapshot has been streamed

  function Streaming(text: Text): (steps: seq<Step>) {
    Opening("a", M, "1", 1) + [Emit(1, AnswerSnapshot(text), NOW)]
  }

  /** The row of the run that has streamed one snapshot. */
  function StreamedRow(cfg: Config, text: Text): (run: Run) {
    AppendEvents(StartedRow(cfg, NewRun(cfg, Ask(M, "1"), NOW)), [AnswerSnapshot(text)], NOW)
  }

  predicate Streamed(cfg: Config, s: System, text: Text) {
    && s.db.runs == map["a" := StreamedRow(cfg, text)]
    && s.execs == map[1 := Exec("a", WORKER, Answering)]
    && s.db.messages.Keys == {M} && CHAT in s.db.conversations && s.db.conversations[CHAT].owner == USER
  }

  lemma EmitStreams(cfg: Config, accounts: map<UserId, Account>, first: System, text: Text, s: System)
    requires Ready(accounts) && Opened(cfg, Fresh(accounts), first, "a", M, "1", 1)
             && s == Apply(cfg, first, Emit(1, AnswerSnapshot(text), NOW))
    ensures Streamed(cfg, s, text)
  {
    OpenedHasOne(cfg, accounts, first);
  }

  lemma StreamIt(cfg: Config, accounts: map<UserId, Account>, text: Text, s: System)
    requires Ready(accounts) && RoomForTwo(cfg) && s == Protocol.Run(cfg, Fresh(accounts), Streaming(text))
    ensures Streamed(cfg, s, text)
  {
    var first := Protocol.Run(cfg, Fresh(accounts), Opening("a", M, "1", 1));
    var streamed := Apply(cfg, first, Emit(1, AnswerSnapshot(text), NOW));
    RunNext(cfg, Fresh(accounts), Opening("a", M, "1", 1), Emit(1, AnswerSnapshot(text), NOW), first, streamed);
    FirstOpens(cfg, accounts, Fresh(accounts), first);
    EmitStreams(cfg, accounts, first, text, streamed);
  }

  lemma StreamedLog(cfg: Config, text: Text)
    ensures var run := StreamedRow(cfg, text);
            && |run.log| == 3 && run.log[2].body == AnswerSnapshot(text) && LatestSnapshot(run.log) == Some(text)
            && run.status == Working && run.owner == Some(USER) && run.conversation == CHAT && run.message == M
            && run.cancelRequested.None?
  {}

  lemma NothingStored(db: Db)
    requires db.messages.Keys == {M}
    ensures Agreement.Stored(db, M).None?
  {
    assert AssistantId(M)[0] != M[0];
  }

  /** A browser that starts without the response and hears the run to its end. */
  predicate Follower(c: Client.Chat, inputs: seq<Screen.Input>, v: Screen.Watching, after: Db, later: seq<Event>) {
    && Agreement.Unanswered(c, M) && !Screen.Stopped(inputs) && !v.active
    && v == Screen.Watch(AssistantId(M), Screen.Watching(c, false, true), inputs)
    && ("a" in after.runs ==> Screen.Arrived(inputs) <= Stream.UpToTerminal(after.runs["a"].log + later))
  }

  function ShownText(v: Screen.Watching): (text: Option<Text>) {
    Screen.TextOf(Client.Response(v.chat.messages, AssistantId(M)))
  }

  /** A terminated run whose client keeps text that the server does not store: one streamed snapshot,
      then termination. */
  lemma TerminatedTextIsLeft(
    cfg: Config, accounts: map<UserId, Account>, text: Text, s: System, after: System, c: Client.Chat,
    inputs: seq<Screen.Input>, v: Screen.Watching, later: seq<Event>)
    requires Ready(accounts) && RoomForTwo(cfg) && s == Protocol.Run(cfg, Fresh(accounts), Streaming(text))
    requires after == Apply(cfg, s, Conclude(1, TerminateTurn, NOW)) && Follower(c, inputs, v, after.db, later)
    ensures ShownText(v) == Some(text) && Agreement.Stored(after.db, M).None?
  {
    StreamIt(cfg, accounts, text, s);
    StreamedLog(cfg, text);
    NothingStored(s.db);
    assert Agreement.Opens(s.db.runs["a"].log[2].body);
    Outcomes.EveryOutcome(cfg, accounts, Streaming(text), s, Conclude(1, TerminateTurn, NOW), after, "a",
                          Outcomes.ByTurn(TerminateTurn), c, AssistantId(M), inputs, v, later);
  }

  /** A failed run: the browser that hears it fail shows the failure, and the server stores no response. */
  lemma FailureIsNotStored(
    cfg: Config, accounts: map<UserId, Account>, text: Text, code: string, s: System, after: System, c: Client.Chat,
    inputs: seq<Screen.Input>, v: Screen.Watching, later: seq<Event>)
    requires Ready(accounts) && RoomForTwo(cfg) && s == Protocol.Run(cfg, Fresh(accounts), Streaming(text))
    requires after == Apply(cfg, s, ConcludeFailed(1, code, NOW)) && Follower(c, inputs, v, after.db, later)
    ensures ShownText(v) == Some(UNREACHABLE_COPY) && Agreement.Stored(after.db, M).None?
  {
    StreamIt(cfg, accounts, text, s);
    StreamedLog(cfg, text);
    NothingStored(s.db);
    Outcomes.EveryOutcome(cfg, accounts, Streaming(text), s, ConcludeFailed(1, code, NOW), after, "a",
                          Outcomes.ByFailure(code), c, AssistantId(M), inputs, v, later);
  }

  // ---------------------------------------------------------------- a blank snapshot, then a cancellation

  const BLANK: Text := Words(" ")

  function BlankThenAsked(): (steps: seq<Step>) {
    Streaming(BLANK) + [RequestCancel("a", NOW)]
  }

  predicate CancelAsked(cfg: Config, s: System) {
    && s.db.runs == map["a" := AskedRow(StreamedRow(cfg, BLANK), NOW)]
    && s.db.messages.Keys == {M} && CHAT in s.db.conversations && s.db.conversations[CHAT].owner == USER
  }

  lemma CancelIsAsked(cfg: Config, streamed: System, s: System)
    requires Streamed(cfg, streamed, BLANK) && s == Apply(cfg, streamed, RequestCancel("a", NOW))
    ensures CancelAsked(cfg, s)
  {
    StreamedLog(cfg, BLANK);
  }

  lemma CancelPath(cfg: Config, accounts: map<UserId, Account>, s: System)
    requires Ready(accounts) && RoomForTwo(cfg) && s == Protocol.Run(cfg, Fresh(accounts), BlankThenAsked())
    ensures CancelAsked(cfg, s)
  {
    var streamed := Protocol.Run(cfg, Fresh(accounts), Streaming(BLANK));
    var asked := Apply(cfg, streamed, RequestCancel("a", NOW));
    RunNext(cfg, Fresh(accounts), Streaming(BLANK), RequestCancel("a", NOW), streamed, asked);
    StreamIt(cfg, accounts, BLANK, streamed);
    CancelIsAsked(cfg, streamed, asked);
  }

  lemma AskedLog(cfg: Config)
    ensures var run := AskedRow(StreamedRow(cfg, BLANK), NOW);
            && SnapshotText(run.log) == BLANK && run.status == Working && run.cancelRequested.Some?
            && run.owner == Some(USER) && run.conversation == CHAT && run.message == M
  {
    StreamedLog(cfg, BLANK);
    var run := StreamedRow(cfg, BLANK);
    var asked := AskedRow(run, NOW);
    assert asked.log[..|asked.log| - 1] == run.log;
  }

  /** A cancelled run whose stored answer the client does not show: its only snapshot is blank. */
  lemma BlankPartialIsNotShown(
    cfg: Config, accounts: map<UserId, Account>, s: System, after: System, c: Client.Chat, inputs: seq<Screen.Input>,
    v: Screen.Watching, later: seq<Event>)
    requires Ready(accounts) && RoomForTwo(cfg) && s == Protocol.Run(cfg, Fresh(accounts), BlankThenAsked())
    requires after == Apply(cfg, s, CancelPolled("a", NOW)) && Follower(c, inputs, v, after.db, later)
    ensures ShownText(v).None? && Agreement.Stored(after.db, M) == Some(BLANK)
  {
    CancelPath(cfg, accounts, s);
    AskedLog(cfg);
    NothingStored(s.db);
    Outcomes.EveryOutcome(cfg, accounts, BlankThenAsked(), s, CancelPolled("a", NOW), after, "a", Outcomes.ByWorker,
                          c, AssistantId(M), inputs, v, later);
  }

  // ---------------------------------------------------------------- a run that is cancelled in the queue

  /** The worker gives the run back after it has streamed; the user then asks to cancel it. */
  function Requeued(text: Text): (steps: seq<Step>) {
    Streaming(text) + [Retry("a", WORKER, "worker_execution_failed", NOW)]
  }

  predicate Waits(s: System, text: Text) {
    && Unfinished(s.db, "a") && s.db.runs["a"].status == Status.Accepted && s.db.runs["a"].cancelRequested.None?
    && s.db.runs["a"].message == M && SnapshotText(s.db.runs["a"].log) == text
    && OwnsConversation(s.db, s.db.runs["a"]) && Agreement.Stored(s.db, M).None?
  }

  lemma RequeuedRow(cfg: Config, text: Text, run: Run)
    requires ValidConfig(cfg) && cfg.maxAttempts >= 2
    requires run == ReleasedRow(cfg, StreamedRow(cfg, text), "worker_execution_failed", NOW)
    ensures StreamedRow(cfg, text).leaseOwner == Some(WORKER)
    ensures run.status == Status.Accepted && run.cancelRequested.None? && run.message == M
            && SnapshotText(run.log) == text
    ensures run.owner == Some(USER) && run.conversation == CHAT
  {
    StreamedLog(cfg, text);
    assert run.log[..|run.log| - 1] == StreamedRow(cfg, text).log;
  }

  lemma GiveBack(cfg: Config, streamed: System, text: Text, s: System)
    requires ValidConfig(cfg) && cfg.maxAttempts >= 2 && Streamed(cfg, streamed, text)
    requires s == Apply(cfg, streamed, Retry("a", WORKER, "worker_execution_failed", NOW))
    ensures Waits(s, text)
  {
    RequeuedRow(cfg, text, ReleasedRow(cfg, StreamedRow(cfg, text), "worker_execution_failed", NOW));
    NothingStored(streamed.db);
    assert s.db.runs["a"] == ReleasedRow(cfg, StreamedRow(cfg, text), "worker_execution_failed", NOW);
  }

  lemma RequeuedPath(cfg: Config, accounts: map<UserId, Account>, text: Text, s: System)
    requires Ready(accounts) && RoomForTwo(cfg) && cfg.maxAttempts >= 2
    requires s == Protocol.Run(cfg, Fresh(accounts), Requeued(text))
    ensures Waits(s, text)
  {
    var streamed := Protocol.Run(cfg, Fresh(accounts), Streaming(text));
    var given := Apply(cfg, streamed, Retry("a", WORKER, "worker_execution_failed", NOW));
    RunNext(cfg, Fresh(accounts), Streaming(text), Retry("a", WORKER, "worker_execution_failed", NOW), streamed, given);
    StreamIt(cfg, accounts, text, streamed);
    GiveBack(cfg, streamed, text, given);
  }

  /** A run cancelled in the queue after it has streamed: the browser that follows it to its end shows text
      that the server does not store. */
  lemma QueuedTextIsLeft(
    cfg: Config, accounts: map<UserId, Account>, text: Text, s: System, after: System, c: Client.Chat,
    inputs: seq<Screen.Input>, v: Screen.Watching, later: seq<Event>)
    requires Ready(accounts) && RoomForTwo(cfg) && cfg.maxAttempts >= 2 && !Client.ClientBlank(text)
    requires s == Protocol.Run(cfg, Fresh(accounts), Requeued(text))
    requires after == Apply(cfg, s, RequestCancel("a", NOW)) && Follower(c, inputs, v, after.db, later)
    ensures ShownText(v) == Some(text) && Agreement.Stored(after.db, M).None?
  {
    RequeuedPath(cfg, accounts, text, s);
    Outcomes.EveryOutcome(cfg, accounts, Requeued(text), s, RequestCancel("a", NOW), after, "a",
                          Outcomes.BeforeDispatch,
                          c, AssistantId(M), inputs, v, later);
  }

  // ---------------------------------------------------------------- a user who stops

  /** The user stops after the first snapshot; the request arrives, and another snapshot is streamed. */
  function StoppedBetween(one: Text, two: Text): (steps: seq<Step>) {
    Streaming(one) + [RequestCancel("a", NOW)] + [Emit(1, AnswerSnapshot(two), NOW)]
  }

  /** The browser hears these events. */
  function Hears(events: seq<Event>): (inputs: seq<Screen.Input>) {
    seq(|events|, i requires 0 <= i < |events| => Screen.Arrives(events[i]))
  }

  /** The run goes on after the request, with `text` as its last snapshot. */
  predicate AskedToStop(cfg: Config, s: System, one: Text, text: Text) {
    && Unfinished(s.db, "a") && s.db.runs["a"].cancelRequested.Some? && s.db.runs["a"].message == M
    && StreamedRow(cfg, one).log <= s.db.runs["a"].log && SnapshotText(s.db.runs["a"].log) == text
    && OwnsConversation(s.db, s.db.runs["a"]) && Agreement.Stored(s.db, M).None?
    && At(s, 1, Answering) && s.execs[1].run == "a"
  }

  function TwiceStreamedRow(cfg: Config, one: Text, two: Text): (run: Run) {
    AppendEvents(AskedRow(StreamedRow(cfg, one), NOW), [AnswerSnapshot(two)], NOW)
  }

  lemma AskedRowIs(cfg: Config, one: Text, run: Run)
    requires run == AskedRow(StreamedRow(cfg, one), NOW)
    ensures run.status == Working && run.cancelRequested.Some? && run.message == M
    ensures run.owner == Some(USER) && run.conversation == CHAT
    ensures StreamedRow(cfg, one).log <= run.log && SnapshotText(run.log) == one
  {
    StreamedLog(cfg, one);
    assert run.log[..|run.log| - 1] == StreamedRow(cfg, one).log;
  }

  lemma StopIsAsked(cfg: Config, streamed: System, one: Text, asked: System)
    requires Streamed(cfg, streamed, one) && asked == Apply(cfg, streamed, RequestCancel("a", NOW))
    ensures AskedToStop(cfg, asked, one, one) && asked.db.runs["a"] == AskedRow(StreamedRow(cfg, one), NOW)
  {
    StreamedLog(cfg, one);
    AskedRowIs(cfg, one, AskedRow(StreamedRow(cfg, one), NOW));
    NothingStored(streamed.db);
    assert asked.db.runs["a"] == AskedRow(StreamedRow(cfg, one), NOW);
  }

  lemma StreamsOn(cfg: Config, asked: System, one: Text, two: Text, s: System)
    requires AskedToStop(cfg, asked, one, one) && s == Apply(cfg, asked, Emit(1, AnswerSnapshot(two), NOW))
    ensures AskedToStop(cfg, s, one, two)
  {
    var run := asked.db.runs["a"];
    assert s.db.runs["a"] == AppendEvents(run, [AnswerSnapshot(two)], NOW);
    assert s.db.runs["a"].log[..|s.db.runs["a"].log| - 1] == run.log;
  }

  lemma AskedPath(cfg: Config, accounts: map<UserId, Account>, one: Text, s: System)
    requires Ready(accounts) && RoomForTwo(cfg)
    requires s == Protocol.Run(cfg, Fresh(accounts), Streaming(one) + [RequestCancel("a", NOW)])
    ensures AskedToStop(cfg, s, one, one)
  {
    var streamed := Protocol.Run(cfg, Fresh(accounts), Streaming(one));
    var asked := Apply(cfg, streamed, RequestCancel("a", NOW));
    RunNext(cfg, Fresh(accounts), Streaming(one), RequestCancel("a", NOW), streamed, asked);
    StreamIt(cfg, accounts, one, streamed);
    StopIsAsked(cfg, streamed, one, asked);
  }

  lemma StoppedPath(cfg: Config, accounts: map<UserId, Account>, one: Text, two: Text, s: System)
    requires Ready(accounts) && RoomForTwo(cfg) && s == Protocol.Run(cfg, Fresh(accounts), StoppedBetween(one, two))
    ensures AskedToStop(cfg, s, one, two)
  {
    var asked := Protocol.Run(cfg, Fresh(accounts), Streaming(one) + [RequestCancel("a", NOW)]);
    var streamed := Apply(cfg, asked, Emit(1, AnswerSnapshot(two), NOW));
    RunNext(cfg, Fresh(accounts), Streaming(one) + [RequestCancel("a", NOW)], Emit(1, AnswerSnapshot(two), NOW), asked,
            streamed);
    AskedPath(cfg, accounts, one, asked);
    StreamsOn(cfg, asked, one, two, streamed);
  }

  /** What the user of these histories does: hears the first snapshot and stops. */
  function HearsAndStops(cfg: Config, one: Text): (inputs: seq<Screen.Input>) {
    Hears(StreamedRow(cfg, one).log) + [Screen.Stops(NOW)]
  }

  lemma {:induction false} HearingArrives(events: seq<Event>)
    ensures Screen.Arrived(Hears(events)) == events && !Screen.Stopped(Hears(events))
  {
    if events != [] {
      var most := events[..|events| - 1];
      HearingArrives(most);
      assert Hears(events)[..|events| - 1] == Hears(most);
    }
  }

  lemma StopIsHeard(cfg: Config, one: Text, inputs: seq<Screen.Input>)
    requires inputs == HearsAndStops(cfg, one)
    ensures Screen.Stopped(inputs) && Screen.Seen(inputs) == Screen.Arrived(inputs) == StreamedRow(cfg, one).log
    ensures Outcomes.SeenText(StreamedRow(cfg, one).log) == one
  {
    var log := StreamedRow(cfg, one).log;
    StreamedLog(cfg, one);
    StreamedIsQuiet(cfg, one);
    HearingArrives(log);
    Screen.LastInput(Hears(log), Screen.Stops(NOW), inputs);
    Screen.SeenBegins(Hears(log));
  }

  lemma StreamedIsQuiet(cfg: Config, one: Text)
    ensures !Stream.Ended(StreamedRow(cfg, one).log)
  {}

  lemma StopEndsWatch(c: Client.Chat, cfg: Config, one: Text, inputs: seq<Screen.Input>, v: Screen.Watching)
    requires inputs == HearsAndStops(cfg, one) && Agreement.Unanswered(c, M)
    requires v == Screen.Watch(AssistantId(M), Screen.Watching(c, false, true), inputs)
    ensures !v.active
  {
    StopIsHeard(cfg, one, inputs);
    Agreement.UnansweredIsFit(c, M);
    Screen.WatchShowsSeen(AssistantId(M), c, inputs, v);
  }

  /** What arrives before the stop is in the log the run ends with. */
  lemma StoppedIsPrefix(cfg: Config, s: System, one: Text, text: Text, k: Outcomes.Ending, after: System, now: Time,
                        inputs: seq<Screen.Input>)
    requires AskedToStop(cfg, s, one, text) && Agreement.InProgress(s.db.runs["a"].log)
    requires Outcomes.EndedBy(s.db, after.db, "a", k, now) && inputs == HearsAndStops(cfg, one)
    ensures Screen.Arrived(inputs) <= Stream.UpToTerminal(after.db.runs["a"].log + [])
  {
    var run := s.db.runs["a"];
    StopIsHeard(cfg, one, inputs);
    Outcomes.ReceivedOfClosed(run.log, run.lastSequence + 1, k, now, after.db.runs["a"].log, []);
  }

  /** A user who stops and a run that streams on: the browser keeps the first snapshot, and the worker that
      finds the request stores the second. */
  lemma StoppedTextDiffers(cfg: Config, accounts: map<UserId, Account>, one: Text, two: Text, s: System,
                           after: System, c: Client.Chat, v: Screen.Watching)
    requires Ready(accounts) && RoomForTwo(cfg) && !Client.ClientBlank(one) && two != []
    requires s == Protocol.Run(cfg, Fresh(accounts), StoppedBetween(one, two))
             && after == Apply(cfg, s, CancelPolled("a", NOW))
    requires Agreement.Unanswered(c, M)
    requires v == Screen.Watch(AssistantId(M), Screen.Watching(c, false, true), HearsAndStops(cfg, one))
    ensures ShownText(v) == Some(one)
    ensures Agreement.Stored(after.db, M) == Some(two)
  {
    var inputs := HearsAndStops(cfg, one);
    StoppedPath(cfg, accounts, one, two, s);
    Agreement.InProgressAlways(cfg, accounts, StoppedBetween(one, two), s, "a");
    Outcomes.StepEnds(cfg, s, CancelPolled("a", NOW), after, "a", Outcomes.ByWorker);
    StoppedIsPrefix(cfg, s, one, two, Outcomes.ByWorker, after, NOW, inputs);
    StopEndsWatch(c, cfg, one, inputs, v);
    StopIsHeard(cfg, one, inputs);
    Outcomes.EveryOutcome(cfg, accounts, StoppedBetween(one, two), s, CancelPolled("a", NOW), after, "a",
                          Outcomes.ByWorker,
                          c, AssistantId(M), inputs, v, []);
  }

  /** A user who stops too late: the run completes all the same, the browser keeps the first snapshot, and
      the server stores the answer. */
  lemma StoppedRunCompletes(cfg: Config, accounts: map<UserId, Account>, one: Text, s: System, after: System,
                            c: Client.Chat, v: Screen.Watching)
    requires Ready(accounts) && RoomForTwo(cfg) && !Client.ClientBlank(one)
    requires s == Protocol.Run(cfg, Fresh(accounts), Streaming(one) + [RequestCancel("a", NOW)])
    requires after == Apply(cfg, s, Conclude(1, ANSWER, NOW)) && Agreement.Unanswered(c, M)
    requires v == Screen.Watch(AssistantId(M), Screen.Watching(c, false, true), HearsAndStops(cfg, one))
    ensures ShownText(v) == Some(one)
    ensures Agreement.Stored(after.db, M) == Some(ANSWER.text)
  {
    var inputs := HearsAndStops(cfg, one);
    var steps := Streaming(one) + [RequestCancel("a", NOW)];
    AskedPath(cfg, accounts, one, s);
    Agreement.InProgressAlways(cfg, accounts, steps, s, "a");
    AnswerIsValid();
    Outcomes.StepEnds(cfg, s, Conclude(1, ANSWER, NOW), after, "a", Outcomes.ByTurn(ANSWER));
    StoppedIsPrefix(cfg, s, one, one, Outcomes.ByTurn(ANSWER), after, NOW, inputs);
    StopEndsWatch(c, cfg, one, inputs, v);
    StopIsHeard(cfg, one, inputs);
    Outcomes.EveryOutcome(cfg, accounts, steps, s, Conclude(1, ANSWER, NOW), after, "a", Outcomes.ByTurn(ANSWER),
                          c, AssistantId(M), inputs, v, []);
  }

  // ---------------------------------------------------------------- a unit that leaks

  /** With a single attempt allowed: ask, claim, give up. */
  function GiveUp(): (steps: seq<Step>) {
    [Create("a", Ask(M, "1"), NOW)] + [ClaimNext(1, WORKER, "a", {}, NOW)] +
        [Retry("a", WORKER, "agent_unavailable", NOW)]
  }

  lemma AskedAlone(cfg: Config, accounts: map<UserId, Account>, asked: System)
    requires Ready(accounts) && RoomForTwo(cfg) && asked == Apply(cfg, Fresh(accounts), Create("a", Ask(M, "1"), NOW))
    ensures asked.db.runs == map["a" := NewRun(cfg, Ask(M, "1"), NOW)] && asked.execs == map[]
    ensures asked.db.ledger == map["a" := Reservation(Ask(M, "1"), NOW)]
    ensures Count(asked.db.counters, ServiceKey(Day(NOW))) == 1
  {
    FreshHasRoom(cfg, accounts, "a", M, "1");
    AskStep(cfg, Fresh(accounts), "a", M, "1", asked);
    IncrementCounts(map[], {ServiceKey(Day(NOW))}, ServiceKey(Day(NOW)));
  }

  lemma GivenUp(cfg: Config, accounts: map<UserId, Account>, asked: System, claimed: System, after: System)
    requires Ready(accounts) && RoomForTwo(cfg) && cfg.maxAttempts == 1
    requires asked == Apply(cfg, Fresh(accounts), Create("a", Ask(M, "1"), NOW))
    requires claimed == Apply(cfg, asked, ClaimNext(1, WORKER, "a", {}, NOW))
    requires after == Apply(cfg, claimed, Retry("a", WORKER, "agent_unavailable", NOW))
    ensures Count(after.db.counters, ServiceKey(Day(NOW))) == 1
            && LiveUnder(after.db.ledger, ServiceKey(Day(NOW))) == {}
  {
    AskedAlone(cfg, accounts, asked);
    ClaimIt(cfg, asked, "a", 1, claimed);
    ReleaseKeepsQuotaTables(cfg, claimed.db, "a", WORKER, "agent_unavailable", NOW);
  }

  /** A unit really leaks: after this history from an empty installation the service's counter of the day
      stands at one and no unit is live under it. */
  lemma GivenUpUnitLeaks(cfg: Config, accounts: map<UserId, Account>, s: System)
    requires Ready(accounts) && RoomForTwo(cfg) && cfg.maxAttempts == 1
             && s == Protocol.Run(cfg, Fresh(accounts), GiveUp())
    ensures Count(s.db.counters, ServiceKey(Day(NOW))) == 1 && |LiveUnder(s.db.ledger, ServiceKey(Day(NOW)))| == 0
  {
    var asked := Apply(cfg, Fresh(accounts), Create("a", Ask(M, "1"), NOW));
    var claimed := Apply(cfg, asked, ClaimNext(1, WORKER, "a", {}, NOW));
    var after := Apply(cfg, claimed, Retry("a", WORKER, "agent_unavailable", NOW));
    RunOne(cfg, Fresh(accounts), Create("a", Ask(M, "1"), NOW));
    RunNext(cfg, Fresh(accounts), [Create("a", Ask(M, "1"), NOW)], ClaimNext(1, WORKER, "a", {}, NOW), asked, claimed);
    RunNext(cfg, Fresh(accounts), [Create("a", Ask(M, "1"), NOW)] + [ClaimNext(1, WORKER, "a", {}, NOW)],
            Retry("a", WORKER, "agent_unavailable", NOW), claimed, after);
    GivenUp(cfg, accounts, asked, claimed, after);
  }
}
