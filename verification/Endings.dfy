/** What the tables hold after a run has ended, column by column, for every kind of ending. */
module Endings {
  import opened Records
  import opened Transactions
  import opened Protocol
  import opened RunInvariants
  import opened RunTransitions
  import opened AnswerRecords
  import opened Outcomes

  // ---------------------------------------------------------------- the columns

  /** The title a turn gives, if it gives one that is not empty. */
  function TitleOf(k: Ending): (title: Option<Text>) {
    match k
    case ByTurn(AnswerTurn(_, Some(t), _)) => if t == [] then None else Some(t)
    case ByTurn(ArchiveTurn(Some(t))) => if t == [] then None else Some(t)
    case _ => None
  }

  function TitledThenCompleted(title: Option<Text>): (bodies: seq<Body>) {
    if title.Some? then [ConversationTitled(title.value), RunCompleted] else [RunCompleted]
  }

  function LastEvents(k: Ending, log: seq<Event>): (bodies: seq<Body>) {
    match k
    case ByTurn(AnswerTurn(_, _, _)) => TitledThenCompleted(TitleOf(k))
    case ByTurn(ArchiveTurn(_)) => [ArchiveUnavailable(ARCHIVES_COPY)] + TitledThenCompleted(TitleOf(k))
    case ByTurn(TerminateTurn) => [ConversationTerminated]
    case ByFailure(code) => [RunFailed(code, UNREACHABLE_COPY)]
    case ByWorker => [RunCancelled(if WrittenBy(k, log).Some? then WrittenBy(k, log).value else [])]
    case BeforeDispatch => [RunCancelled([])]
  }

  function LastStatus(k: Ending): (status: Status) {
    match k
    case ByTurn(TerminateTurn) => Terminated
    case ByTurn(_) => Completed
    case ByFailure(_) => Failed
    case ByWorker => Cancelled
    case BeforeDispatch => Cancelled
  }

  /** The run's row, closed at this time. */
  function ClosedRow(run: Run, k: Ending, now: Time): (row: Run) {
    var bodies := LastEvents(k, run.log);
    var text := WrittenBy(k, run.log);
    var asked := k.BeforeDispatch? || (k.ByWorker? && run.cancelRequested.None?);
    run.(status := LastStatus(k), updatedAt := now, leaseOwner := None, leaseExpires := None,
         cancelRequested := if asked then Some(now) else run.cancelRequested,
         answer := if text.Some? then text else run.answer,
         error := if k.ByFailure? then Some(k.code) else run.error,
         lastSequence := run.lastSequence + |bodies|,
         log := run.log + seq(|bodies|, i requires 0 <= i < |bodies| =>
                                Event(run.lastSequence + 1 + i, bodies[i], now)))
  }

  /** The end of an execution, and a cancellation that has a text, are entered in the run's own conversation;
      giving the run up, or stopping it before its dispatch, is not. */
  predicate Enters(db: Db, run: Run, k: Ending, givenUp: bool) {
    && AtHome(db, run) && !givenUp
    && (k.ByTurn? || k.ByFailure? || (k.ByWorker? && WrittenBy(k, run.log).Some?))
  }

  function EnteredConversation(c: Conversation, k: Ending, now: Time): (row: Conversation) {
    Conversation(c.owner, if TitleOf(k).Some? then TitleOf(k).value else c.title,
                 TitleOf(k).Some? || c.titleGenerated, c.pinned,
                 k == ByTurn(TerminateTurn) || c.terminated, c.revision + 1, now)
  }

  function ConversationsAfter(db: Db, run: Run, k: Ending, givenUp: bool, now: Time)
    : (conversations: map<ConversationId, Conversation>)
  {
    if Enters(db, run, k, givenUp)
    then db.conversations[run.conversation := EnteredConversation(db.conversations[run.conversation], k, now)]
    else db.conversations
  }

  /** What a turn writes in the control of the message it answers. */
  function ActionOf(turn: Turn): (action: SafetyAction) {
    match turn
    case TerminateTurn => TerminateAction
    case ArchiveTurn(_) => ArchiveAction
    case AnswerTurn(_, _, true) => UrgentSafety
    case AnswerTurn(_, _, false) => AnswerAction
  }

  function ControlsAfter(db: Db, run: Run, k: Ending): (controls: map<MessageId, Control>) {
    if k.ByTurn? && run.message in db.controls then
      var c := db.controls[run.message];
      db.controls[run.message := Control(c.conversation, c.session, c.owner, c.ordinal, ActionOf(k.turn))]
    else db.controls
  }

  /** A unit still reserved is released when the run is given up or stopped before its dispatch. */
  function LedgerAfter(db: Db, r: RunId, k: Ending, givenUp: bool): (ledger: map<RunId, LedgerEntry>) {
    if (givenUp || k.BeforeDispatch?) && r in db.ledger && db.ledger[r].status == Reserved
    then db.ledger[r := db.ledger[r].(status := Released)]
    else db.ledger
  }

  /** The tables after the run `r` has ended so. */
  ghost predicate TablesEnded(db: Db, after: Db, r: RunId, k: Ending, givenUp: bool, now: Time)
    requires r in db.runs
  {
    var run := db.runs[r];
    && after.runs == db.runs[r := ClosedRow(run, k, now)]
    && Recorded(db, after, run, if AtHome(db, run) then WrittenBy(k, run.log) else None)
    && after.conversations == ConversationsAfter(db, run, k, givenUp, now)
    && after.controls == ControlsAfter(db, run, k) && after.ledger == LedgerAfter(db, r, k, givenUp)
    && after.accounts == db.accounts && after.grants == db.grants
    && (!k.BeforeDispatch? ==> after.counters == db.counters)
  }

  // ---------------------------------------------------------------- a turn

  lemma TurnEventsAre(turn: Turn, log: seq<Event>)
    ensures TurnEvents(turn) == LastEvents(ByTurn(turn), log) && TurnStatus(turn) == LastStatus(ByTurn(turn))
    ensures TurnAction(turn) == ActionOf(turn)
  {}

  lemma LastTitleOf(bodies: seq<Body>, title: Option<Text>)
    requires bodies == TitledThenCompleted(title)
             || bodies == [ArchiveUnavailable(ARCHIVES_COPY)] + TitledThenCompleted(title)
    ensures LastTitle(bodies) == title
  {
    var n := |bodies| - 1;
    assert bodies[n].RunCompleted? && LastTitle(bodies) == LastTitle(bodies[..n]);
    if title.None? && n == 1 {
      assert bodies[..n] == [ArchiveUnavailable(ARCHIVES_COPY)] && bodies[..n][..0] == [];
    }
  }

  lemma TurnTitle(turn: Turn, log: seq<Event>)
    ensures LastTitle(TurnEvents(turn)) == TitleOf(ByTurn(turn))
  {
    TurnEventsAre(turn, log);
    if !turn.TerminateTurn? { LastTitleOf(TurnEvents(turn), TitleOf(ByTurn(turn))); }
  }

  lemma FinalizedTables(db: Db, r: RunId, status: Status, bodies: seq<Body>, marked: Option<(MessageId, SafetyAction)>,
                        answer: Option<Text>, error: Option<string>, now: Time, after: Db)
    requires Unfinished(db, r) && after == FinalizeRun(db, r, status, bodies, marked, answer, error, now)
    ensures after.runs == db.runs[r := AppendEvents(FinishedRow(db.runs[r], status, answer, error, now), bodies, now)]
    ensures after.controls ==
            if marked.Some? then SetAction(db.controls, marked.value.0, marked.value.1) else db.controls
    ensures after.conversations ==
            if AtHome(db, db.runs[r])
            then db.conversations[db.runs[r].conversation :=
                   TouchConversation(db.conversations[db.runs[r].conversation], status, bodies, now)]
            else db.conversations
    ensures after.accounts == db.accounts && after.grants == db.grants && after.counters == db.counters
            && after.ledger == db.ledger
  {}

  lemma TurnTouches(c: Conversation, turn: Turn, log: seq<Event>, now: Time)
    requires ValidTurn(turn)
    ensures TouchConversation(c, TurnStatus(turn), TurnEvents(turn), now) == EnteredConversation(c, ByTurn(turn), now)
  {
    TurnTitle(turn, log);
  }

  lemma TurnRow(run: Run, turn: Turn, now: Time)
    requires ValidTurn(turn)
    ensures AppendEvents(FinishedRow(run, TurnStatus(turn), TurnAnswer(turn), None, now), TurnEvents(turn), now) ==
            ClosedRow(run, ByTurn(turn), now)
  {
    TurnEventsAre(turn, run.log);
    TurnWrites(turn, run.log);
  }

  lemma TurnIs(db: Db, r: RunId, turn: Turn, now: Time, after: Db)
    requires Unfinished(db, r) && ValidTurn(turn) && after == ConcludeRun(db, r, turn, now)
    ensures TablesEnded(db, after, r, ByTurn(turn), false, now)
  {
    var run := db.runs[r];
    FinalizedTables(db, r, TurnStatus(turn), TurnEvents(turn), Some((run.message, TurnAction(turn))), TurnAnswer(turn),
                    None, now, after);
    TurnRow(run, turn, now);
    TurnIsRecorded(db, r, turn, now, after);
    TurnEventsAre(turn, run.log);
    if AtHome(db, run) { TurnTouches(db.conversations[run.conversation], turn, run.log, now); }
  }

  // ---------------------------------------------------------------- a failure

  lemma OneAppended(run: Run, b: Body, now: Time)
    ensures AppendEvents(run, [b], now) ==
            run.(lastSequence := run.lastSequence + 1, log := run.log + [Event(run.lastSequence + 1, b, now)])
  {
    assert NumberedEvents(run.lastSequence + 1, [b], now) == [Event(run.lastSequence + 1, b, now)];
  }

  lemma ClosedWithOne(run: Run, k: Ending, b: Body, now: Time)
    requires LastEvents(k, run.log) == [b]
    ensures ClosedRow(run, k, now).lastSequence == run.lastSequence + 1
    ensures ClosedRow(run, k, now).log == run.log + [Event(run.lastSequence + 1, b, now)]
  {}

  lemma FailureIs(db: Db, r: RunId, code: string, now: Time, after: Db)
    requires Unfinished(db, r) && after == FailRun(db, r, code, now)
    ensures TablesEnded(db, after, r, ByFailure(code), false, now)
  {
    var run := db.runs[r];
    var failed := [RunFailed(code, UNREACHABLE_COPY)];
    FinalizedTables(db, r, Failed, failed, None, None, Some(code), now, after);
    OneAppended(FinishedRow(run, Failed, None, Some(code), now), failed[0], now);
    ClosedWithOne(run, ByFailure(code), failed[0], now);
    FinishedLog(db, r, Failed, failed, None, None, Some(code), now, after);
    Unrecorded(db, after, run);
    if AtHome(db, run) {
      assert LastTitle(failed) == None;
      assert TouchConversation(db.conversations[run.conversation], Failed, failed, now) ==
             EnteredConversation(db.conversations[run.conversation], ByFailure(code), now);
    }
  }

  lemma GivenUpTables(cfg: Config, db: Db, r: RunId, worker: WorkerId, code: string, now: Time, after: Db)
    requires HoldsLease(db, r, worker) && db.runs[r].attempts >= cfg.maxAttempts
    requires after == ReleaseForRetry(cfg, db, r, worker, code, now)
    ensures after == db.(runs := db.runs[r := ReleasedRow(cfg, db.runs[r], code, now)],
                         ledger := SetLedger(db.ledger, r, Released))
  {}

  lemma GiveUpIs(cfg: Config, db: Db, r: RunId, worker: WorkerId, code: string, now: Time, after: Db)
    requires Unfinished(db, r) && HoldsLease(db, r, worker) && db.runs[r].attempts >= cfg.maxAttempts
    requires after == ReleaseForRetry(cfg, db, r, worker, code, now)
    ensures TablesEnded(db, after, r, ByFailure(code), true, now)
  {
    var run := db.runs[r];
    var failed :=
        run.(leaseOwner := None, leaseExpires := None, updatedAt := now, status := Failed, error := Some(code));
    GivenUpTables(cfg, db, r, worker, code, now, after);
    OneAppended(failed, RunFailed(code, UNREACHABLE_COPY), now);
    ClosedWithOne(run, ByFailure(code), RunFailed(code, UNREACHABLE_COPY), now);
    Unrecorded(db, after, run);
  }

  // ---------------------------------------------------------------- a cancellation

  lemma CancelledTables(db: Db, r: RunId, now: Time, text: Text, row: Run, after: Db)
    requires Unfinished(db, r) && after == MarkCancelled(db, r, now)
    requires text == SnapshotText(db.runs[r].log) && row == CancelledRow(db.runs[r], now)
    ensures after.runs == db.runs[r := AppendEvents(row, [RunCancelled(text)], now)]
    ensures after.conversations ==
            if text == [] then db.conversations
            else PersistResult(db, row, Cancelled, [], Some(text), now).conversations
    ensures after.controls == db.controls && after.ledger == db.ledger && after.counters == db.counters
            && after.accounts == db.accounts && after.grants == db.grants
  {}

  lemma ResultConversations(db: Db, run: Run, row: Run, text: Text, now: Time, result: Db)
    requires result == PersistResult(db, row, Cancelled, [], Some(text), now)
    requires row.conversation == run.conversation && row.owner == run.owner
    ensures result.conversations ==
            if AtHome(db, run)
            then db.conversations[run.conversation :=
                   TouchConversation(db.conversations[run.conversation], Cancelled, [], now)]
            else db.conversations
  {}

  lemma CancelIs(db: Db, r: RunId, now: Time, after: Db)
    requires Unfinished(db, r) && after == MarkCancelled(db, r, now)
    ensures TablesEnded(db, after, r, ByWorker, false, now)
  {
    var run := db.runs[r];
    var text := SnapshotText(run.log);
    var row := CancelledRow(run, now);
    CancelledTables(db, r, now, text, row, after);
    ResultConversations(db, run, row, text, now, PersistResult(db, row, Cancelled, [], Some(text), now));
    OneAppended(row, RunCancelled(text), now);
    ClosedWithOne(run, ByWorker, RunCancelled(text), now);
    CancelIsRecorded(db, r, now, after);
    if AtHome(db, run) {
      assert TouchConversation(db.conversations[run.conversation], Cancelled, [], now) ==
             EnteredConversation(db.conversations[run.conversation], ByWorker, now);
    }
  }

  lemma RequestedTables(db: Db, r: RunId, now: Time, after: Db)
    requires Unfinished(db, r) && db.runs[r].status == Status.Accepted && db.runs[r].cancelRequested.None?
    requires after == RequestCancellation(db, r, now)
    ensures after.runs == db.runs[r := AskedRow(db.runs[r], now)]
    ensures after.messages == db.messages && after.conversations == db.conversations && after.controls == db.controls
    ensures after.accounts == db.accounts && after.grants == db.grants
    ensures after.ledger == LedgerAfter(db, r, BeforeDispatch, false)
  {}

  lemma AskedIsClosed(run: Run, now: Time)
    requires run.status == Status.Accepted && run.leaseOwner.None? && run.leaseExpires.None?
    ensures AskedRow(run, now) == ClosedRow(run, BeforeDispatch, now)
  {
    OneAppended(run.(cancelRequested := Some(now), updatedAt := now, status := Cancelled), RunCancelled([]), now);
    ClosedWithOne(run, BeforeDispatch, RunCancelled([]), now);
  }

  lemma RequestIs(db: Db, r: RunId, now: Time, after: Db)
    requires Unfinished(db, r) && db.runs[r].status == Status.Accepted && db.runs[r].cancelRequested.None?
    requires db.runs[r].leaseOwner.None? && db.runs[r].leaseExpires.None?
    requires after == RequestCancellation(db, r, now)
    ensures TablesEnded(db, after, r, BeforeDispatch, false, now)
  {
    var run := db.runs[r];
    RequestedTables(db, r, now, after);
    AskedIsClosed(run, now);
    Unrecorded(db, after, run);
  }

  // ---------------------------------------------------------------- every ending

  lemma ExecutionEndingIs(cfg: Config, s: System, step: Step, after: System, r: RunId, k: Ending)
    requires Unfinished(s.db, r) && IsExecStep(step) && after == ExecStep(s, step)
    requires EndingOf(cfg, s, step, r) == Some(k)
    ensures TablesEnded(s.db, after.db, r, k, false, step.now)
  {
    match step
    case Conclude(e, turn, now) => TurnIs(s.db, r, turn, now, after.db);
    case ConcludeFailed(e, code, now) => FailureIs(s.db, r, code, now, after.db);
    case CancelRefused(e, now) => CancelIs(s.db, r, now, after.db);
  }

  /** Whatever the history and however a run ends, the tables are these afterwards: the run's closed row and
      its events, the answer's whole record, the conversation, the control, the unit, and nothing else. */
  lemma EveryEndingIs(cfg: Config, accounts: map<UserId, Account>, steps: seq<Step>, s: System, step: Step,
                      after: System, r: RunId, k: Ending)
    requires s == Protocol.Run(cfg, Fresh(accounts), steps) && after == Protocol.Apply(cfg, s, step)
    requires Unfinished(s.db, r) && EndingOf(cfg, s, step, r) == Some(k)
    ensures TablesEnded(s.db, after.db, r, k, step.Retry?, step.now)
  {
    if IsExecStep(step) {
      ApplyExec(cfg, s, step);
      ExecutionEndingIs(cfg, s, step, after, r, k);
    } else {
      match step
      case CancelPolled(q, now) => CancelIs(s.db, r, now, after.db);
      case Retry(q, worker, code, now) => GiveUpIs(cfg, s.db, r, worker, code, now, after.db);
      case RequestCancel(q, now) =>
        RunsOkAlways(cfg, accounts, steps);
        OkAt(cfg, s.db, r);
        RequestIs(s.db, r, now, after.db);
    }
  }

  // ---------------------------------------------------------------- before the end

  /** The run's row with one event more. */
  function WithEvent(run: Run, b: Body, now: Time): (row: Run) {
    run.(lastSequence := run.lastSequence + 1, log := run.log + [Event(run.lastSequence + 1, b, now)])
  }

  /** What an answering execution reports is appended to its run's log, in every state of the run, and
      nothing else changes. */
  lemma ReportIsLogged(cfg: Config, s: System, e: ExecId, body: Body, now: Time, after: System)
    requires after == Protocol.Apply(cfg, s, Emit(e, body, now)) && At(s, e, Answering) && ProgressBody(body)
    ensures var r := s.execs[e].run;
            after == if r in s.db.runs
                     then s.(db := s.db.(runs := s.db.runs[r := WithEvent(s.db.runs[r], body, now)])) else s
  {
    if s.execs[e].run in s.db.runs { OneAppended(s.db.runs[s.execs[e].run], body, now); }
  }

  lemma AskedRows(db: Db, r: RunId, now: Time, after: Db)
    requires after == RequestCancellation(db, r, now) && Unfinished(db, r) && db.runs[r].cancelRequested.None?
    requires db.runs[r].status != Status.Accepted
    ensures after == db.(runs := db.runs[r := AskedRow(db.runs[r], now)])
  {}

  /** A request to stop a run that has been dispatched only marks it and says so in its log. */
  lemma RequestIsMarked(cfg: Config, s: System, r: RunId, now: Time, after: System)
    requires after == Protocol.Apply(cfg, s, RequestCancel(r, now)) && r in s.db.runs
    requires s.db.runs[r].status in {Dispatched, Working} && s.db.runs[r].cancelRequested.None?
    ensures after == s.(db := s.db.(runs := s.db.runs[r :=
              WithEvent(s.db.runs[r], StatusChanged("stopping", "Stopping", None), now).(
                cancelRequested := Some(now), updatedAt := now)]))
  {
    AskedRows(s.db, r, now, after.db);
    OneAppended(s.db.runs[r].(cancelRequested := Some(now), updatedAt := now),
                StatusChanged("stopping", "Stopping", None), now);
  }
}
