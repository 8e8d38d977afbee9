/** Every way in which a run can end, against every way of watching it: what the server stores, what the
    browser shows, and exactly when the two agree. */
module Outcomes {
  import opened Records
  import opened Transactions
  import opened Protocol
  import opened RunInvariants
  import opened RunTransitions
  import opened Stream
  import opened Client
  import opened Replay
  import opened Screen
  import opened Agreement
  import opened AnswerRecords

  // ---------------------------------------------------------------- the ways a run ends

  datatype Ending =
    | ByTurn(turn: Turn)
    | ByFailure(code: string)
    | ByWorker                  // cancelled by the worker, which stores the last snapshot
    | BeforeDispatch            // cancelled by the request itself, while the run waits in the queue

  function StatusOf(k: Ending): (status: Status) {
    match k
    case ByTurn(turn) => TurnStatus(turn)
    case ByFailure(_) => Failed
    case _ => Cancelled
  }

  /** The events that close the run. */
  function ClosingBodies(k: Ending, log: seq<Event>): (bodies: seq<Body>) {
    match k
    case ByTurn(turn) => TurnEvents(turn)
    case ByFailure(code) => [RunFailed(code, UNREACHABLE_COPY)]
    case ByWorker => [RunCancelled(SnapshotText(log))]
    case BeforeDispatch => [RunCancelled([])]
  }

  /** The stored response after a run with this log has ended so; without a stored conversation of the
      run's user nothing is written. */
  function StoredBy(k: Ending, log: seq<Event>, owned: bool, before: Option<Text>): (text: Option<Text>) {
    if !owned then before
    else
      match k
      case ByTurn(turn) => OrElse(TurnAnswer(turn), before)
      case ByWorker => if SnapshotText(log) != [] then Some(SnapshotText(log)) else before
      case _ => before
  }

  /** The text this ending stores, if any. */
  function WrittenBy(k: Ending, log: seq<Event>): (text: Option<Text>) {
    match k
    case ByTurn(AnswerTurn(text, _, _)) => Some(text)
    case ByTurn(ArchiveTurn(_)) => Some(ARCHIVES_COPY)
    case ByTurn(TerminateTurn) => None
    case ByWorker => if SnapshotText(log) == [] then None else Some(SnapshotText(log))
    case ByFailure(_) => None
    case BeforeDispatch => None
  }

  /** How a step ends the run, if it does. */
  function EndingOf(cfg: Config, s: System, step: Step, r: RunId): (k: Option<Ending>)
    requires r in s.db.runs
  {
    match step
    case Conclude(e, turn, _) =>
      if At(s, e, Answering) && ValidTurn(turn) && s.execs[e].run == r then Some(ByTurn(turn)) else None
    case ConcludeFailed(e, code, _) =>
      if At(s, e, Answering) && s.execs[e].run == r then Some(ByFailure(code)) else None
    case CancelRefused(e, _) => if At(s, e, Refused) && s.execs[e].run == r then Some(ByWorker) else None
    case CancelPolled(q, _) => if q == r && s.db.runs[r].cancelRequested.Some? then Some(ByWorker) else None
    case Retry(q, worker, code, _) =>
      if q == r && HoldsLease(s.db, r, worker) && s.db.runs[r].attempts >= cfg.maxAttempts
      then Some(ByFailure(code)) else None
    case RequestCancel(q, _) =>
      if q == r && s.db.runs[r].cancelRequested.None? && s.db.runs[r].status == Status.Accepted
      then Some(BeforeDispatch) else None
    case _ => None
  }

  /** The run has ended so at this time: its log is closed, and its response is stored as a whole record, in
      the conversation of the run's user and in no other. */
  ghost predicate EndedBy(db: Db, after: Db, r: RunId, k: Ending, now: Time)
    requires r in db.runs
  {
    var run := db.runs[r];
    && r in after.runs && after.runs[r].status == StatusOf(k) && after.runs[r].message == run.message
    && after.runs[r].log == run.log + NumberedEvents(run.lastSequence + 1, ClosingBodies(k, run.log), now)
    && Stored(after, run.message) == StoredBy(k, run.log, OwnsConversation(db, run), Stored(db, run.message))
    && Recorded(db, after, run, if AtHome(db, run) then WrittenBy(k, run.log) else None)
  }

  // ---------------------------------------------------------------- the server's end

  lemma FinishedLog(db: Db, r: RunId, status: Status, bodies: seq<Body>, marked: Option<(MessageId, SafetyAction)>,
                    answer: Option<Text>, error: Option<string>, now: Time, after: Db)
    requires Unfinished(db, r) && after == FinalizeRun(db, r, status, bodies, marked, answer, error, now)
    ensures r in after.runs && after.runs[r].status == status && after.runs[r].message == db.runs[r].message
    ensures after.runs[r].log == db.runs[r].log + NumberedEvents(db.runs[r].lastSequence + 1, bodies, now)
    ensures after.messages ==
            PersistResult(db, FinishedRow(db.runs[r], status, answer, error, now), status, bodies, answer, now).messages
  {}

  lemma TurnEnds(db: Db, r: RunId, turn: Turn, now: Time, after: Db)
    requires Unfinished(db, r) && ValidTurn(turn) && after == ConcludeRun(db, r, turn, now)
    ensures EndedBy(db, after, r, ByTurn(turn), now)
  {
    FinishedLog(db, r, TurnStatus(turn), TurnEvents(turn), Some((db.runs[r].message, TurnAction(turn))),
                TurnAnswer(turn),
                None, now, after);
    if OwnsConversation(db, db.runs[r]) {
      StoredByTurn(db, r, turn, now);
    }
    TurnIsRecorded(db, r, turn, now, after);
  }

  lemma TurnWrites(turn: Turn, log: seq<Event>)
    requires ValidTurn(turn)
    ensures TurnAnswer(turn) == WrittenBy(ByTurn(turn), log)
            && (TurnAnswer(turn).Some? ==> TurnAnswer(turn).value != [])
  {
    assert |ARCHIVES_COPY| > 0;
  }

  lemma TurnIsRecorded(db: Db, r: RunId, turn: Turn, now: Time, after: Db)
    requires Unfinished(db, r) && ValidTurn(turn) && after == ConcludeRun(db, r, turn, now)
    ensures var run := db.runs[r];
            Recorded(db, after, run, if AtHome(db, run) then WrittenBy(ByTurn(turn), run.log) else None)
  {
    var run := db.runs[r];
    var row := FinishedRow(run, TurnStatus(turn), TurnAnswer(turn), None, now);
    TurnWrites(turn, run.log);
    FinishedLog(db, r, TurnStatus(turn), TurnEvents(turn), Some((run.message, TurnAction(turn))), TurnAnswer(turn),
                None, now, after);
    ResultIsRecorded(db, row, TurnStatus(turn), TurnEvents(turn), TurnAnswer(turn), now,
                     PersistResult(db, row, TurnStatus(turn), TurnEvents(turn), TurnAnswer(turn), now), after);
    RecordedOfRow(db, after, run, row, if AtHome(db, run) then WrittenBy(ByTurn(turn), run.log) else None);
  }

  lemma FailureEnds(db: Db, r: RunId, code: string, now: Time, after: Db)
    requires Unfinished(db, r) && after == FailRun(db, r, code, now)
    ensures EndedBy(db, after, r, ByFailure(code), now)
  {
    FinishedLog(db, r, Failed, [RunFailed(code, UNREACHABLE_COPY)], None, None, Some(code), now, after);
  }

  lemma CancelEnds(db: Db, r: RunId, now: Time, after: Db)
    requires Unfinished(db, r) && after == MarkCancelled(db, r, now)
    ensures EndedBy(db, after, r, ByWorker, now)
  {
    CancelledLog(db, r, now);
    if OwnsConversation(db, db.runs[r]) {
      CancelledStores(db, r, now);
    } else {
      UnownedStoresNothing(db, r, now, after);
    }
    CancelledMessage(db, r, now, after);
    CancelIsRecorded(db, r, now, after);
  }

  lemma CancelledMessages(db: Db, r: RunId, now: Time, after: Db)
    requires Unfinished(db, r) && after == MarkCancelled(db, r, now)
    ensures var text := SnapshotText(db.runs[r].log);
            after.messages == if text == [] then db.messages
                              else PersistResult(db, CancelledRow(db.runs[r], now), Cancelled, [], Some(text),
                                                 now).messages
  {}

  lemma CancelIsRecorded(db: Db, r: RunId, now: Time, after: Db)
    requires Unfinished(db, r) && after == MarkCancelled(db, r, now)
    ensures var run := db.runs[r];
            Recorded(db, after, run, if AtHome(db, run) then WrittenBy(ByWorker, run.log) else None)
  {
    var run := db.runs[r];
    var row, text := CancelledRow(run, now), SnapshotText(run.log);
    CancelledMessages(db, r, now, after);
    if text == [] {
      Unrecorded(db, after, run);
    } else {
      ResultIsRecorded(db, row, Cancelled, [], Some(text), now,
                       PersistResult(db, row, Cancelled, [], Some(text), now), after);
      RecordedOfRow(db, after, run, row, if AtHome(db, run) then Some(text) else None);
    }
  }

  lemma UnownedStoresNothing(db: Db, r: RunId, now: Time, after: Db)
    requires Unfinished(db, r) && !OwnsConversation(db, db.runs[r]) && after == MarkCancelled(db, r, now)
    ensures after.messages == db.messages
  {}

  lemma CancelledMessage(db: Db, r: RunId, now: Time, after: Db)
    requires Unfinished(db, r) && after == MarkCancelled(db, r, now)
    ensures r in after.runs && after.runs[r].status == Cancelled && after.runs[r].message == db.runs[r].message
  {}

  lemma RequestEnds(db: Db, r: RunId, now: Time, after: Db)
    requires Unfinished(db, r) && db.runs[r].status == Status.Accepted && db.runs[r].cancelRequested.None?
    requires after == RequestCancellation(db, r, now)
    ensures EndedBy(db, after, r, BeforeDispatch, now)
  {
    assert after.runs == db.runs[r := AskedRow(db.runs[r], now)] && after.messages == db.messages;
  }

  lemma GiveUpEnds(cfg: Config, db: Db, r: RunId, worker: WorkerId, code: string, now: Time, after: Db)
    requires Unfinished(db, r) && HoldsLease(db, r, worker) && db.runs[r].attempts >= cfg.maxAttempts
    requires after == ReleaseForRetry(cfg, db, r, worker, code, now)
    ensures EndedBy(db, after, r, ByFailure(code), now)
  {
    assert after.runs == db.runs[r := ReleasedRow(cfg, db.runs[r], code, now)] && after.messages == db.messages;
  }

  /** A step that ends the run does so as its kind says, whoever takes it. */
  lemma StepEnds(cfg: Config, s: System, step: Step, after: System, r: RunId, k: Ending)
    requires Unfinished(s.db, r) && after == Protocol.Apply(cfg, s, step)
    requires EndingOf(cfg, s, step, r) == Some(k)
    ensures EndedBy(s.db, after.db, r, k, step.now)
  {
    match step
    case Conclude(e, turn, now) =>
      ApplyExec(cfg, s, step);
      TurnEnds(s.db, r, turn, now, after.db);
    case ConcludeFailed(e, code, now) =>
      ApplyExec(cfg, s, step);
      FailureEnds(s.db, r, code, now, after.db);
    case CancelRefused(e, now) =>
      ApplyExec(cfg, s, step);
      CancelEnds(s.db, r, now, after.db);
    case CancelPolled(q, now) => CancelEnds(s.db, r, now, after.db);
    case Retry(q, worker, code, now) => GiveUpEnds(cfg, s.db, r, worker, code, now, after.db);
    case RequestCancel(q, now) => RequestEnds(s.db, r, now, after.db);
  }

  // ---------------------------------------------------------------- there is no other way

  lemma WorkEndsNone(s: System, step: Step, after: System, r: RunId)
    requires step.Begin? || step.ChargeRun? || step.AnnounceThinking? || step.Resume? || step.Emit?
    requires Unfinished(s.db, r) && after == ExecStep(s, step)
    ensures Unfinished(after.db, r)
  {}

  lemma ClosingStepEndsItsRun(cfg: Config, s: System, step: Step, after: System, r: RunId)
    requires step.Conclude? || step.ConcludeFailed? || step.CancelRefused?
    requires Unfinished(s.db, r) && after == ExecStep(s, step) && EndingOf(cfg, s, step, r).None?
    ensures Unfinished(after.db, r)
  {}

  lemma ReleaseEndsNone(cfg: Config, db: Db, q: RunId, worker: WorkerId, code: string, now: Time, after: Db, r: RunId)
    requires Unfinished(db, r) && after == ReleaseForRetry(cfg, db, q, worker, code, now)
    requires !(q == r && HoldsLease(db, r, worker) && db.runs[r].attempts >= cfg.maxAttempts)
    ensures Unfinished(after, r)
  {}

  lemma RequestEndsNone(db: Db, q: RunId, now: Time, after: Db, r: RunId)
    requires Unfinished(db, r) && after == RequestCancellation(db, q, now)
    requires !(q == r && db.runs[r].cancelRequested.None? && db.runs[r].status == Status.Accepted)
    ensures Unfinished(after, r)
  {}

  lemma MarkEndsNone(db: Db, q: RunId, now: Time, after: Db, r: RunId)
    requires Unfinished(db, r) && after == MarkCancelled(db, q, now) && q != r
    ensures Unfinished(after, r)
  {}

  lemma DispatchEndsNone(cfg: Config, s: System, step: Step, after: System, r: RunId)
    requires step.Retry? || step.RequestCancel? || step.CancelPolled?
    requires Unfinished(s.db, r) && after == Protocol.Apply(cfg, s, step) && EndingOf(cfg, s, step, r).None?
    ensures Unfinished(after.db, r)
  {
    match step
    case Retry(q, worker, code, now) => ReleaseEndsNone(cfg, s.db, q, worker, code, now, after.db, r);
    case RequestCancel(q, now) => RequestEndsNone(s.db, q, now, after.db, r);
    case CancelPolled(q, now) => if after != s { MarkEndsNone(s.db, q, now, after.db, r); }
  }

  lemma LeaseEndsNone(cfg: Config, s: System, step: Step, after: System, r: RunId)
    requires (step.ClaimNext? || step.RenewLease?) && Unfinished(s.db, r) && after == Protocol.Apply(cfg, s, step)
    ensures Unfinished(after.db, r)
  {}

  lemma StoringEndsNone(cfg: Config, s: System, step: Step, after: System, r: RunId)
    requires step.Create? || step.SweepRuns? || step.Edit? || step.Upsert? || step.Delete?
             || step.SweepSecurity? || step.Grant? || step.Activate? || step.Recover?
    requires Unfinished(s.db, r) && after == Protocol.Apply(cfg, s, step)
    ensures Unfinished(after.db, r)
  {
    if step.Create? {
      CreateStep(cfg, s, step, after);
    } else if step.SweepRuns? {
      SweepStep(cfg, s, step, after, r);
    } else {
      RestKeepsRuns(cfg, s, step, after);
    }
  }

  /** Every step that ends a run, by whomever it is taken, is of one of the kinds. */
  lemma EveryEndIsOne(cfg: Config, s: System, step: Step, after: System, r: RunId)
    requires Unfinished(s.db, r) && after == Protocol.Apply(cfg, s, step)
    ensures EndingOf(cfg, s, step, r).None? ==> Unfinished(after.db, r)
  {
    if EndingOf(cfg, s, step, r).None? {
      if step.Conclude? || step.ConcludeFailed? || step.CancelRefused? {
        ApplyExec(cfg, s, step);
        ClosingStepEndsItsRun(cfg, s, step, after, r);
      } else if IsExecStep(step) {
        ApplyExec(cfg, s, step);
        WorkEndsNone(s, step, after, r);
      } else if step.Retry? || step.RequestCancel? || step.CancelPolled? {
        DispatchEndsNone(cfg, s, step, after, r);
      } else if step.ClaimNext? || step.RenewLease? {
        LeaseEndsNone(cfg, s, step, after, r);
      } else {
        StoringEndsNone(cfg, s, step, after, r);
      }
    }
  }

  // ---------------------------------------------------------------- the browser's end

  /** What the server sends before the event that ends a run. */
  predicate BeforeTheEnd(b: Body) {
    b.RunAccepted? || ProgressBody(b) || b.ArchiveUnavailable? || b.ConversationTitled?
  }

  /** The last text sent, or the empty one. */
  function SeenText(events: seq<Event>): (text: Text) {
    if events == [] then []
    else
      var b := events[|events| - 1].body;
      if b.AnswerSnapshot? || b.ArchiveUnavailable? then b.text else SeenText(events[..|events| - 1])
  }

  /** What a stop or a cancellation keeps of a text. */
  function Keep(text: Text): (kept: Option<Text>) {
    if ClientBlank(text) then None else Some(text)
  }

  lemma {:induction false} SeenShows(id: MessageId, events: seq<Event>)
    requires forall i :: 0 <= i < |events| ==> BeforeTheEnd(events[i].body)
    ensures var x := EffectAll(None, id, events);
            && (x.Some? ==> x.value.content == SeenText(events)) && (x.None? ==> SeenText(events) == [])
    ensures KeptOf(EffectAll(None, id, events)) == Keep(SeenText(events))
  {
    if events != [] {
      var most := events[..|events| - 1];
      assert forall i :: 0 <= i < |most| ==> most[i] == events[i];
      SeenShows(id, most);
    }
  }

  lemma ClosingIsClosing(k: Ending, log: seq<Event>)
    ensures ClosingList(ClosingBodies(k, log))
    ensures var bodies := ClosingBodies(k, log);
            forall i :: 0 <= i < |bodies| - 1 ==> BeforeTheEnd(bodies[i])
  {
    if k.ByTurn? { TurnEventsClose(k.turn); }
  }

  predicate Closes(log: seq<Event>, first: nat, k: Ending, now: Time, closed: seq<Event>) {
    closed == log + NumberedEvents(first, ClosingBodies(k, log), now)
  }

  lemma ReceivedOfClosed(log: seq<Event>, first: nat, k: Ending, now: Time, closed: seq<Event>, later: seq<Event>)
    requires InProgress(log) && Closes(log, first, k, now, closed)
    ensures UpToTerminal(closed + later) == closed && closed != [] && TerminalBody(closed[|closed| - 1].body)
  {
    ClosingIsClosing(k, log);
    QuietWhileInProgress(log);
    StopsAtTheEnd(log, NumberedEvents(first, ClosingBodies(k, log), now), later);
  }

  lemma EndsAtLast(events: seq<Event>)
    requires events != [] && TerminalBody(events[|events| - 1].body)
    ensures Ended(events)
  {}

  lemma SeenIsBeforeTheEnd(log: seq<Event>, first: nat, k: Ending, now: Time, closed: seq<Event>, seen: seq<Event>)
    requires InProgress(log) && Closes(log, first, k, now, closed) && seen <= closed && !Ended(seen)
    ensures forall i :: 0 <= i < |seen| ==> BeforeTheEnd(seen[i].body)
  {
    ClosingIsClosing(k, log);
    ReceivedOfClosed(log, first, k, now, closed, []);
    EndsAtLast(closed);
    assert |seen| < |closed|;
    forall i | 0 <= i < |seen| ensures BeforeTheEnd(seen[i].body) {
      assert seen[i] == closed[i];
      if i >= |log| { assert closed[i].body == ClosingBodies(k, log)[i - |log|]; }
    }
  }

  predicate Started(log: seq<Event>) {
    exists i :: 0 <= i < |log| && Opens(log[i].body)
  }

  /** What a browser shows that has heard the whole run. */
  function FollowedText(k: Ending, log: seq<Event>): (text: Option<Text>) {
    match k
    case ByTurn(turn) =>
      if turn.ArchiveTurn? then Some(ARCHIVES_COPY) else if Started(log) then Some(SnapshotText(log)) else None
    case ByFailure(_) => Some(UNREACHABLE_COPY)
    case _ => Keep(SnapshotText(log))
  }

  lemma OneClosingEvent(x: Option<ChatMessage>, id: MessageId, first: nat, b: Body, now: Time)
    ensures EffectAll(x, id, NumberedEvents(first, [b], now)) == Effect(x, id, Event(first, b, now))
  {
    assert NumberedEvents(first, [b], now) == [Event(first, b, now)];
    EffectOne(x, id, Event(first, b, now));
  }

  lemma ClosingShows(x: Option<ChatMessage>, id: MessageId, log: seq<Event>, first: nat, k: Ending, now: Time,
                     y: Option<ChatMessage>)
    requires x.Some? ==> x.value.content == SnapshotText(log)
    requires x.Some? <==> Started(log)
    requires LatestSnapshot(log).Some? ==> x.Some?
    requires y == EffectAll(x, id, NumberedEvents(first, ClosingBodies(k, log), now))
    ensures TextOf(y) == FollowedText(k, log)
  {
    match k
    case ByTurn(turn) => TurnEffect(x, id, first, turn, now);
    case ByFailure(code) => OneClosingEvent(x, id, first, RunFailed(code, UNREACHABLE_COPY), now);
    case ByWorker => OneClosingEvent(x, id, first, RunCancelled(SnapshotText(log)), now);
    case BeforeDispatch => OneClosingEvent(x, id, first, RunCancelled([]), now);
  }

  lemma FollowedShows(id: MessageId, log: seq<Event>, first: nat, k: Ending, now: Time, closed: seq<Event>)
    requires InProgress(log) && Closes(log, first, k, now, closed)
    ensures TextOf(EffectAll(None, id, closed)) == FollowedText(k, log)
  {
    ShowsLastSnapshot(id, log);
    EffectAppend(None, id, log, NumberedEvents(first, ClosingBodies(k, log), now));
    ClosingShows(EffectAll(None, id, log), id, log, first, k, now, EffectAll(None, id, closed));
  }

  // ---------------------------------------------------------------- both ends

  /** How much of the run the browser has heard: all of it, or what had arrived when the user stopped. */
  datatype Heard = ToTheEnd | UntilStop(seen: seq<Event>)

  function HeardBy(inputs: seq<Input>): (h: Heard) {
    if Stopped(inputs) then UntilStop(Seen(inputs)) else ToTheEnd
  }

  function ShownBy(k: Ending, log: seq<Event>, h: Heard): (text: Option<Text>) {
    match h
    case ToTheEnd => FollowedText(k, log)
    case UntilStop(seen) => Keep(SeenText(seen))
  }

  lemma StopperShows(id: MessageId, c: Chat, log: seq<Event>, first: nat, k: Ending, now: Time, closed: seq<Event>,
                     seen: seq<Event>)
    requires Response(c.messages, id).None? && AtMostOne(c.messages, id)
    requires InProgress(log) && Closes(log, first, k, now, closed) && seen <= closed && !Ended(seen)
    ensures KeptOf(Response(Fold(c, id, seen).messages, id)) == Keep(SeenText(seen))
  {
    FoldParts(c, id, seen);
    SeenIsBeforeTheEnd(log, first, k, now, closed, seen);
    SeenShows(id, seen);
  }

  lemma FollowerShows(id: MessageId, c: Chat, log: seq<Event>, first: nat, k: Ending, now: Time, closed: seq<Event>,
                      heard: seq<Event>)
    requires Response(c.messages, id).None? && AtMostOne(c.messages, id)
    requires InProgress(log) && Closes(log, first, k, now, closed) && heard <= closed && Ended(heard)
    ensures TextOf(Response(Fold(c, id, heard).messages, id)) == FollowedText(k, log)
  {
    ReceivedOfClosed(log, first, k, now, closed, []);
    assert closed + [] == closed;
    EndedIsAll(closed, heard);
    FoldParts(c, id, heard);
    FollowedShows(id, log, first, k, now, closed);
  }

  /** The browser is done with the run: it has heard its end, or the user has stopped it. */
  lemma WatchShows(id: MessageId, c: Chat, inputs: seq<Input>, v: Watching, log: seq<Event>, first: nat, k: Ending,
                   now: Time, closed: seq<Event>, later: seq<Event>)
    requires Response(c.messages, id).None? && AtMostOne(c.messages, id)
    requires v == Watch(id, Watching(c, false, true), inputs) && !v.active
    requires InProgress(log) && Closes(log, first, k, now, closed) && Arrived(inputs) <= UpToTerminal(closed + later)
    ensures TextOf(Response(v.chat.messages, id)) == ShownBy(k, log, HeardBy(inputs))
  {
    WatchShowsSeen(id, c, inputs, v);
    SeenBegins(inputs);
    ReceivedOfClosed(log, first, k, now, closed, later);
    if Stopped(inputs) {
      StopperShows(id, c, log, first, k, now, closed, Seen(inputs));
    } else {
      FollowerShows(id, c, log, first, k, now, closed, Seen(inputs));
    }
  }

  lemma EndedIsAll(closed: seq<Event>, events: seq<Event>)
    requires events <= closed && Ended(events) && UpToTerminal(closed) == closed
    ensures events == closed
  {
    UpToTerminalIsPrefix(closed);
    var i :| 0 <= i < |events| && TerminalBody(events[i].body);
    assert closed[i] == events[i];
  }

  /** When the screen and the store agree, told from the log, the ending and what was heard alone. */
  predicate AgreesWhen(k: Ending, log: seq<Event>, h: Heard) {
    match h
    case ToTheEnd => FollowerAgrees(k, log)
    case UntilStop(seen) => StopperAgrees(k, log, SeenText(seen))
  }

  predicate FollowerAgrees(k: Ending, log: seq<Event>) {
    match k
    case ByTurn(turn) =>
      if turn.AnswerTurn? then LatestSnapshot(log) == Some(turn.text) else turn.ArchiveTurn? || !Started(log)
    case ByFailure(_) => false
    case ByWorker => SnapshotText(log) == [] || !ClientBlank(SnapshotText(log))
    case BeforeDispatch => ClientBlank(SnapshotText(log))
  }

  predicate StopperAgrees(k: Ending, log: seq<Event>, text: Text) {
    match k
    case ByTurn(turn) =>
      if turn.AnswerTurn? then text == turn.text
      else if turn.ArchiveTurn? then text == ARCHIVES_COPY
      else ClientBlank(text)
    case ByWorker => if ClientBlank(text) then SnapshotText(log) == [] else text == SnapshotText(log)
    case _ => ClientBlank(text)
  }

  lemma CompleteIsNotBlank(s: Text)
    requires EndsComplete(s)
    ensures !ClientBlank(s)
  {
    var t := Stripped(s);
    assert s[|t| - 1] == t[|t| - 1];
    if |t| >= 3 && t[|t| - 3..] == Words("```") { assert t[|t| - 3..][2] == t[|t| - 1]; }
  }

  lemma {:induction false} StrippedIs(s: Text)
    ensures forall i :: |Stripped(s)| <= i < |s| ==> ServerSpace(s[i])
    ensures Stripped(s) != [] ==> !ServerSpace(s[|Stripped(s)| - 1])
  {
    if s != [] && ServerSpace(s[|s| - 1]) { StrippedIs(s[..|s| - 1]); }
  }

  /** After its first `n` characters, which do not end in a space, the text has only spaces. */
  predicate TrimmedAt(s: Text, n: nat) {
    0 < n <= |s| && !ServerSpace(s[n - 1]) && forall i :: n <= i < |s| ==> ServerSpace(s[i])
  }

  /** An answer is complete exactly when its last character that is no space ends a sentence, closes a bracket
      or completes a code fence. */
  lemma CompleteIff(s: Text)
    ensures EndsComplete(s) <==>
            exists n :: TrimmedAt(s, n)
                     && (|| s[n - 1] in {'.' as nat, '!' as nat, '?' as nat, ')' as nat, ']' as nat, '}' as nat}
                         || (n >= 3 && s[n - 1] == '`' as nat && s[n - 2] == '`' as nat && s[n - 3] == '`' as nat))
  {
    var t := Stripped(s);
    StrippedIs(s);
    assert t == s[..|t|];
    forall n | TrimmedAt(s, n) ensures n == |t| {}
    if t != [] {
      assert TrimmedAt(s, |t|) && s[|t| - 1] == t[|t| - 1];
      ClosersAre(t[|t| - 1]);
      if |t| >= 3 { FenceIs(t[|t| - 3..]); }
    }
  }

  lemma ClosersAre(c: nat)
    ensures c in Words(".!?)]}") <==>
            c in {'.' as nat, '!' as nat, '?' as nat, ')' as nat, ']' as nat, '}' as nat}
  {
    var w := Words(".!?)]}");
    assert w == [w[0], w[1], w[2], w[3], w[4], w[5]];
  }

  lemma FenceIs(tail: Text)
    requires |tail| == 3
    ensures tail == Words("```") <==> tail[0] == tail[1] == tail[2] == '`' as nat
  {
    var w := Words("```");
    assert w == [w[0], w[1], w[2]];
  }

  lemma ArchivesCopyIsNotBlank()
    ensures !ClientBlank(ARCHIVES_COPY)
  {
    assert ARCHIVES_COPY[|ARCHIVES_COPY| - 1] == '.' as nat;
  }

  lemma AgreementIs(k: Ending, log: seq<Event>, h: Heard)
    requires k.ByTurn? ==> ValidTurn(k.turn)
    ensures ShownBy(k, log, h) == StoredBy(k, log, true, None) <==> AgreesWhen(k, log, h)
  {
    if k.ByTurn? && k.turn.AnswerTurn? { CompleteIsNotBlank(k.turn.text); }
    ArchivesCopyIsNotBlank();
    SnapshotIsStarted(log);
  }

  lemma {:induction false} SnapshotIsStarted(log: seq<Event>)
    ensures LatestSnapshot(log).Some? ==> Started(log)
  {
    if log != [] {
      SnapshotIsStarted(log[..|log| - 1]);
      if Started(log[..|log| - 1]) {
        var i :| 0 <= i < |log| - 1 && Opens(log[..|log| - 1][i].body);
        assert Opens(log[i].body);
      }
      if log[|log| - 1].body.AnswerSnapshot? { assert Opens(log[|log| - 1].body); }
    }
  }

  // ---------------------------------------------------------------- over whole histories

  /** One browser, from a conversation without the response, done with the run: what it shows, what the
      server stores, and when they agree. */
  predicate BothEnds(k: Ending, run: Run, owned: bool, before: Option<Text>, inputs: seq<Input>, shown: Option<Text>,
                     stored: Option<Text>) {
    && shown == ShownBy(k, run.log, HeardBy(inputs)) && stored == StoredBy(k, run.log, owned, before)
    && (owned && before.None? ==> (shown == stored <==> AgreesWhen(k, run.log, HeardBy(inputs))))
  }

  lemma EndedRunAgrees(db: Db, after: Db, r: RunId, k: Ending, now: Time, c: Chat, id: MessageId, inputs: seq<Input>,
                       v: Watching, later: seq<Event>)
    requires r in db.runs && InProgress(db.runs[r].log) && EndedBy(db, after, r, k, now)
             && (k.ByTurn? ==> ValidTurn(k.turn))
    requires id == AssistantId(db.runs[r].message) && Response(c.messages, id).None?
    requires v == Watch(id, Watching(c, false, true), inputs) && !v.active
    requires Arrived(inputs) <= UpToTerminal(after.runs[r].log + later)
    ensures BothEnds(k, db.runs[r], OwnsConversation(db, db.runs[r]), Stored(db, db.runs[r].message), inputs,
                     TextOf(Response(v.chat.messages, id)), Stored(after, db.runs[r].message))
  {
    var run := db.runs[r];
    UnansweredIsFit(c, run.message);
    WatchShows(id, c, inputs, v, run.log, run.lastSequence + 1, k, now, after.runs[r].log, later);
    AgreementIs(k, run.log, HeardBy(inputs));
  }

  lemma EndingIsValid(cfg: Config, s: System, step: Step, r: RunId, k: Ending)
    requires r in s.db.runs && EndingOf(cfg, s, step, r) == Some(k)
    ensures k.ByTurn? ==> ValidTurn(k.turn)
  {}

  /** Whatever the history, whoever ends the run and however, and whether the user has followed the stream
      to its end or stopped it at any moment: what the browser shows, what the server stores, and exactly
      when the two agree. */
  lemma EveryOutcome(
    cfg: Config, accounts: map<UserId, Account>, steps: seq<Step>, s: System, step: Step, after: System, r: RunId,
    k: Ending, c: Chat, id: MessageId, inputs: seq<Input>, v: Watching, later: seq<Event>)
    requires s == Protocol.Run(cfg, Fresh(accounts), steps) && after == Protocol.Apply(cfg, s, step)
    requires Unfinished(s.db, r) && EndingOf(cfg, s, step, r) == Some(k)
    requires id == AssistantId(s.db.runs[r].message) && Response(c.messages, id).None?
    requires v == Watch(id, Watching(c, false, true), inputs) && !v.active
    requires r in after.db.runs ==> Arrived(inputs) <= UpToTerminal(after.db.runs[r].log + later)
    ensures r in after.db.runs && after.db.runs[r].status == StatusOf(k)
    ensures var run := s.db.runs[r];
            Recorded(s.db, after.db, run, if AtHome(s.db, run) then WrittenBy(k, run.log) else None)
    ensures BothEnds(k, s.db.runs[r], OwnsConversation(s.db, s.db.runs[r]), Stored(s.db, s.db.runs[r].message), inputs,
                     TextOf(Response(v.chat.messages, id)), Stored(after.db, s.db.runs[r].message))
  {
    InProgressAlways(cfg, accounts, steps, s, r);
    StepEnds(cfg, s, step, after, r, k);
    EndingIsValid(cfg, s, step, r, k);
    EndedRunAgrees(s.db, after.db, r, k, step.now, c, id, inputs, v, later);
  }

  /** A browser that has heard a run fail shows the failure, and the server stores no response: they never
      agree. One that was stopped before agrees exactly when what it had shown is blank. */
  lemma FailedRunsAgree(log: seq<Event>, code: string, h: Heard)
    ensures ShownBy(ByFailure(code), log, h) == StoredBy(ByFailure(code), log, true, None)
            <==> h.UntilStop? && ClientBlank(SeenText(h.seen))
  {
    AgreementIs(ByFailure(code), log, h);
  }
}
