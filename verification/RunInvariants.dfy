/** What every step keeps about one run: its numbering, its lease and its one terminal event. */
module RunInvariants {
  import opened Records
  import opened Transactions
  import opened Protocol

  /** The terminal events of a log, in order. */
  function TerminalsOf(log: seq<Event>): (bodies: seq<Body>) {
    if log == [] then []
    else
      var last := log[|log| - 1].body;
      TerminalsOf(log[..|log| - 1]) + (if TerminalBody(last) then [last] else [])
  }

  predicate Announces(status: Status, b: Body) {
    match status
    case Completed => b.RunCompleted?
    case Failed => b.RunFailed?
    case Cancelled => b.RunCancelled?
    case Terminated => b.ConversationTerminated?
    case _ => false
  }

  /** Numbers are consecutive and end at the run's counter. */
  predicate Numbered(run: Run) {
    && |run.log| <= run.lastSequence
    && forall i :: 0 <= i < |run.log| ==> run.log[i].sequence == run.lastSequence - |run.log| + 1 + i
  }

  /** No event has been removed: the numbers are exactly 1..lastSequence. */
  predicate Intact(run: Run) {
    |run.log| == run.lastSequence
  }

  predicate InProgressLog(log: seq<Event>) {
    && log != [] && log[0].body.RunAccepted?
    && forall i :: 1 <= i < |log| ==> ProgressBody(log[i].body)
  }

  predicate LogMatchesStatus(run: Run) {
    if Terminal(run.status) then
      && |TerminalsOf(run.log)| <= 1
      && (Intact(run) ==> |TerminalsOf(run.log)| == 1)
      && forall b :: b in TerminalsOf(run.log) ==> Announces(run.status, b)
    else Intact(run) && InProgressLog(run.log)
  }

  predicate LeaseOk(cfg: Config, run: Run) {
    && (run.leaseOwner.Some? <==> run.leaseExpires.Some?)
    && (run.leaseOwner.Some? ==> run.status in {Dispatched, Working})
    && (run.status == Dispatched ==> run.leaseOwner.Some?)
    && run.attempts <= cfg.maxAttempts
  }

  predicate RunOk(cfg: Config, run: Run) {
    Numbered(run) && LogMatchesStatus(run) && LeaseOk(cfg, run)
  }

  ghost predicate RunsOk(cfg: Config, db: Db) {
    forall r :: r in db.runs ==> RunOk(cfg, db.runs[r])
  }

  lemma TerminalsOfAppend(log: seq<Event>, e: Event)
    ensures TerminalsOf(log + [e]) == TerminalsOf(log) + (if TerminalBody(e.body) then [e.body] else [])
  {
    assert (log + [e])[..|log|] == log;
  }

  lemma {:induction false} InProgressHasNoTerminal(log: seq<Event>)
    requires forall i :: 0 <= i < |log| ==> !TerminalBody(log[i].body)
    ensures TerminalsOf(log) == []
  {
    if log != [] { InProgressHasNoTerminal(log[..|log| - 1]); }
  }

  lemma AppendKeepsNumbers(run: Run, bodies: seq<Body>, now: Time)
    requires Numbered(run)
    ensures Numbered(AppendEvents(run, bodies, now))
    ensures Intact(run) ==> Intact(AppendEvents(run, bodies, now))
  {}

  /** A list of events to finish with: every one but the last is ordinary. */
  predicate ClosingList(bodies: seq<Body>) {
    && bodies != []
    && TerminalBody(bodies[|bodies| - 1])
    && forall i :: 0 <= i < |bodies| - 1 ==> !TerminalBody(bodies[i])
  }

  lemma {:induction false} TerminalsOfNumbered(log: seq<Event>, first: nat, bodies: seq<Body>, now: Time)
    requires forall i :: 0 <= i < |bodies| ==> !TerminalBody(bodies[i])
    ensures TerminalsOf(log + NumberedEvents(first, bodies, now)) == TerminalsOf(log)
  {
    var more := NumberedEvents(first, bodies, now);
    if bodies == [] {
      assert log + more == log;
    } else {
      var n := |bodies| - 1;
      TerminalsOfNumbered(log, first, bodies[..n], now);
      assert log + more == (log + NumberedEvents(first, bodies[..n], now)) + [more[n]];
      TerminalsOfAppend(log + NumberedEvents(first, bodies[..n], now), more[n]);
    }
  }

  /** Finishing an unfinished run with a closing list leaves exactly that one terminal event. */
  lemma ClosingLeavesOneTerminal(run: Run, bodies: seq<Body>, now: Time)
    requires InProgressLog(run.log) && ClosingList(bodies)
    ensures TerminalsOf(AppendEvents(run, bodies, now).log) == [bodies[|bodies| - 1]]
  {
    var n := |bodies| - 1;
    var more := NumberedEvents(run.lastSequence + 1, bodies, now);
    var most := NumberedEvents(run.lastSequence + 1, bodies[..n], now);
    assert run.log + more == (run.log + most) + [more[n]];
    InProgressHasNoTerminal(run.log);
    TerminalsOfNumbered(run.log, run.lastSequence + 1, bodies[..n], now);
    TerminalsOfAppend(run.log + most, more[n]);
  }

  lemma CloseKeepsOk(cfg: Config, run: Run, closed: Run, bodies: seq<Body>, now: Time)
    requires RunOk(cfg, run) && !Terminal(run.status)
    requires closed.log == run.log && closed.lastSequence == run.lastSequence && closed.attempts == run.attempts
    requires closed.leaseOwner.None? && closed.leaseExpires.None?
    requires Terminal(closed.status) && ClosingList(bodies) && Announces(closed.status, bodies[|bodies| - 1])
    ensures RunOk(cfg, AppendEvents(closed, bodies, now))
  {
    AppendKeepsNumbers(closed, bodies, now);
    ClosingLeavesOneTerminal(closed, bodies, now);
  }

  lemma ProgressKeepsOk(cfg: Config, run: Run, body: Body, now: Time)
    requires RunOk(cfg, run) && ProgressBody(body)
    ensures RunOk(cfg, AppendEvents(run, [body], now))
  {
    var next := AppendEvents(run, [body], now);
    AppendKeepsNumbers(run, [body], now);
    TerminalsOfNumbered(run.log, run.lastSequence + 1, [body], now);
  }

  lemma TurnEventsClose(turn: Turn)
    ensures ClosingList(TurnEvents(turn))
    ensures Announces(TurnStatus(turn), TurnEvents(turn)[|TurnEvents(turn)| - 1])
  {}

  lemma UpdateKeepsRuns(cfg: Config, db: Db, r: RunId, run: Run, after: Db)
    requires RunsOk(cfg, db) && RunOk(cfg, run)
    requires after.runs == db.runs[r := run]
    ensures RunsOk(cfg, after)
  {}

  lemma CreateForUserAddsOneRun(cfg: Config, db: Db, r: RunId, u: UserId, req: Request, ordinal: nat, now: Time)
    ensures var (after, outcome) := CreateForUser(cfg, db, r, u, req, ordinal, now);
            if outcome.Created? then r !in db.runs && after.runs == db.runs[r := NewRun(cfg, req, now)] else after == db
  {}

  lemma CreateNewAddsOneRun(cfg: Config, db: Db, r: RunId, req: Request, now: Time)
    ensures var (after, outcome) := CreateNew(cfg, db, r, req, now);
            if outcome.Created? then r !in db.runs && after.runs == db.runs[r := NewRun(cfg, req, now)] else after == db
  {
    if req.owner.Some? { CreateForUserAddsOneRun(cfg, db, r, req.owner.value, req, NextControl(db, req), now); }
  }

  /** A create either changes nothing or adds one new run. */
  lemma CreateAddsOneRun(cfg: Config, db: Db, r: RunId, req: Request, now: Time)
    ensures var (after, outcome) := CreateRun(cfg, db, r, req, now);
            if outcome.Created? then r !in db.runs && after.runs == db.runs[r := NewRun(cfg, req, now)] else after == db
  {
    CreateNewAddsOneRun(cfg, db, r, req, now);
  }

  lemma NewRunOk(cfg: Config, req: Request, now: Time)
    ensures RunOk(cfg, NewRun(cfg, req, now))
  {
    assert NewRun(cfg, req, now).log == [Event(1, RunAccepted, now)];
  }

  lemma CreateKeepsRuns(cfg: Config, db: Db, r: RunId, req: Request, now: Time)
    requires RunsOk(cfg, db)
    ensures RunsOk(cfg, CreateRun(cfg, db, r, req, now).0)
  {
    CreateAddsOneRun(cfg, db, r, req, now);
    NewRunOk(cfg, req, now);
    var (after, outcome) := CreateRun(cfg, db, r, req, now);
    if outcome.Created? { UpdateKeepsRuns(cfg, db, r, NewRun(cfg, req, now), after); }
  }

  lemma FinalizeKeepsRuns(cfg: Config, db: Db, r: RunId, status: Status, bodies: seq<Body>,
                          marked: Option<(MessageId, SafetyAction)>, answer: Option<Text>, error: Option<string>,
                          now: Time)
    requires RunsOk(cfg, db)
    requires Terminal(status) && ClosingList(bodies) && Announces(status, bodies[|bodies| - 1])
    ensures RunsOk(cfg, FinalizeRun(db, r, status, bodies, marked, answer, error, now))
  {
    if Unfinished(db, r) {
      var run := FinishedRow(db.runs[r], status, answer, error, now);
      CloseKeepsOk(cfg, db.runs[r], run, bodies, now);
      UpdateKeepsRuns(cfg, db, r, AppendEvents(run, bodies, now),
                      FinalizeRun(db, r, status, bodies, marked, answer, error, now));
    }
  }

  lemma MarkKeepsRuns(cfg: Config, db: Db, r: RunId, now: Time)
    requires RunsOk(cfg, db)
    ensures RunsOk(cfg, MarkCancelled(db, r, now))
  {
    if Unfinished(db, r) {
      var run := CancelledRow(db.runs[r], now);
      var closing := [RunCancelled(SnapshotText(db.runs[r].log))];
      CloseKeepsOk(cfg, db.runs[r], run, closing, now);
      UpdateKeepsRuns(cfg, db, r, AppendEvents(run, closing, now), MarkCancelled(db, r, now));
    }
  }

  lemma AskKeepsOk(cfg: Config, run: Run, now: Time)
    requires RunOk(cfg, run) && !Terminal(run.status)
    ensures RunOk(cfg, AskedRow(run, now))
  {
    var asked := run.(cancelRequested := Some(now), updatedAt := now);
    if run.status == Status.Accepted {
      CloseKeepsOk(cfg, run, asked.(status := Cancelled), [RunCancelled([])], now);
    } else {
      ProgressKeepsOk(cfg, asked, StatusChanged("stopping", "Stopping", None), now);
    }
  }

  lemma RequestKeepsRuns(cfg: Config, db: Db, r: RunId, now: Time)
    requires RunsOk(cfg, db)
    ensures RunsOk(cfg, RequestCancellation(db, r, now))
  {
    if Unfinished(db, r) && db.runs[r].cancelRequested.None? {
      AskKeepsOk(cfg, db.runs[r], now);
      UpdateKeepsRuns(cfg, db, r, AskedRow(db.runs[r], now), RequestCancellation(db, r, now));
    }
  }

  /** The only guard of the release is the lease owner; the lease invariant makes it safe. */
  lemma ReleasedKeepsOk(cfg: Config, run: Run, code: string, now: Time)
    requires RunOk(cfg, run) && run.leaseOwner.Some?
    ensures RunOk(cfg, ReleasedRow(cfg, run, code, now))
  {
    var free := run.(leaseOwner := None, leaseExpires := None, updatedAt := now);
    if run.attempts >= cfg.maxAttempts {
      CloseKeepsOk(cfg, run, free.(status := Failed, error := Some(code)), [RunFailed(code, UNREACHABLE_COPY)], now);
    } else {
      ProgressKeepsOk(cfg, free.(status := Status.Accepted, nextAttempt := now + RetryDelay(run.attempts) * SECOND),
                      StatusChanged("queued", "Reconnecting", None), now);
    }
  }

  lemma ReleaseKeepsRuns(cfg: Config, db: Db, r: RunId, worker: WorkerId, code: string, now: Time)
    requires RunsOk(cfg, db)
    ensures RunsOk(cfg, ReleaseForRetry(cfg, db, r, worker, code, now))
  {
    if HoldsLease(db, r, worker) {
      ReleasedKeepsOk(cfg, db.runs[r], code, now);
      UpdateKeepsRuns(cfg, db, r, ReleasedRow(cfg, db.runs[r], code, now),
                      ReleaseForRetry(cfg, db, r, worker, code, now));
    }
  }

  lemma AddEventKeepsRuns(cfg: Config, db: Db, r: RunId, body: Body, now: Time)
    requires RunsOk(cfg, db) && ProgressBody(body)
    ensures RunsOk(cfg, AddEvent(db, r, body, now))
  {
    if r in db.runs { ProgressKeepsOk(cfg, db.runs[r], body, now); }
  }

  lemma SweepKeepsRuns(cfg: Config, db: Db, now: Time)
    requires RunsOk(cfg, db)
    ensures RunsOk(cfg, PurgeRuns(db, now))
  {
    var after := PurgeRuns(db, now);
    forall r | r in after.runs ensures RunOk(cfg, after.runs[r]) {
      assert after.runs[r] == Scrubbed(db.runs[r], now);
      assert TerminalsOf([]) == [];
      if after.runs[r].log == [] && after.runs[r].lastSequence == 0 { assert Intact(db.runs[r]); }
    }
  }

  lemma ConcludeKeepsRuns(cfg: Config, db: Db, r: RunId, turn: Turn, now: Time)
    requires RunsOk(cfg, db)
    ensures RunsOk(cfg, ConcludeRun(db, r, turn, now))
  {
    if r in db.runs {
      TurnEventsClose(turn);
      FinalizeKeepsRuns(cfg, db, r, TurnStatus(turn), TurnEvents(turn), Some((db.runs[r].message, TurnAction(turn))),
                        TurnAnswer(turn), None, now);
    }
  }

  lemma FailKeepsRuns(cfg: Config, db: Db, r: RunId, code: string, now: Time)
    requires RunsOk(cfg, db)
    ensures RunsOk(cfg, FailRun(db, r, code, now))
  {
    FinalizeKeepsRuns(cfg, db, r, Failed, [RunFailed(code, UNREACHABLE_COPY)], None, None, Some(code), now);
  }

  lemma SetWorkingKeepsRuns(cfg: Config, db: Db, r: RunId, now: Time)
    requires RunsOk(cfg, db)
    ensures RunsOk(cfg, SetWorking(db, r, now))
  {}

  lemma ClaimKeepsRuns(cfg: Config, db: Db, r: RunId, worker: WorkerId, skipped: set<RunId>, now: Time)
    requires RunsOk(cfg, db)
    ensures RunsOk(cfg, Claim(cfg, db, r, worker, skipped, now))
  {}

  lemma RenewKeepsRuns(cfg: Config, db: Db, r: RunId, worker: WorkerId, now: Time)
    requires RunsOk(cfg, db)
    ensures RunsOk(cfg, Renew(cfg, db, r, worker, now))
  {}

  lemma WorkStepKeepsRuns(cfg: Config, s: System, step: Step, after: System)
    requires step.Begin? || step.ChargeRun? || step.AnnounceThinking? || step.Resume? || step.Emit?
    requires RunsOk(cfg, s.db) && after == ExecStep(s, step)
    ensures RunsOk(cfg, after.db)
  {
    if step.e in s.execs {
      var r := s.execs[step.e].run;
      match step
      case Begin(_, now) => SetWorkingKeepsRuns(cfg, s.db, r, now);
      case AnnounceThinking(_, now) => AddEventKeepsRuns(cfg, s.db, r, StatusChanged("thinking", "Thinking", None),
                                                         now);
      case Emit(_, body, now) => if ProgressBody(body) { AddEventKeepsRuns(cfg, s.db, r, body, now); }
      case _ =>
    }
  }

  lemma CloseStepKeepsRuns(cfg: Config, s: System, step: Step, after: System)
    requires step.Conclude? || step.ConcludeFailed? || step.CancelRefused?
    requires RunsOk(cfg, s.db) && after == ExecStep(s, step)
    ensures RunsOk(cfg, after.db)
  {
    if step.e in s.execs {
      var r := s.execs[step.e].run;
      match step
      case Conclude(_, turn, now) => ConcludeKeepsRuns(cfg, s.db, r, turn, now);
      case ConcludeFailed(_, code, now) => FailKeepsRuns(cfg, s.db, r, code, now);
      case CancelRefused(_, now) => MarkKeepsRuns(cfg, s.db, r, now);
    }
  }

  lemma LeaseStepKeepsRuns(cfg: Config, s: System, step: Step, after: System)
    requires step.ClaimNext? || step.RenewLease? || step.Retry?
    requires RunsOk(cfg, s.db) && after == Apply(cfg, s, step)
    ensures RunsOk(cfg, after.db)
  {
    match step
    case ClaimNext(_, worker, r, skipped, now) => ClaimKeepsRuns(cfg, s.db, r, worker, skipped, now);
    case RenewLease(r, worker, now) => RenewKeepsRuns(cfg, s.db, r, worker, now);
    case Retry(r, worker, code, now) => ReleaseKeepsRuns(cfg, s.db, r, worker, code, now);
  }

  lemma CancelStepKeepsRuns(cfg: Config, s: System, step: Step, after: System)
    requires step.CancelPolled? || step.RequestCancel?
    requires RunsOk(cfg, s.db) && after == Apply(cfg, s, step)
    ensures RunsOk(cfg, after.db)
  {
    match step
    case CancelPolled(r, now) => MarkKeepsRuns(cfg, s.db, r, now);
    case RequestCancel(r, now) => RequestKeepsRuns(cfg, s.db, r, now);
  }

  /** Only conversations, their messages and their controls differ. */
  predicate OnlyWriting(db: Db, after: Db) {
    after == db.(conversations := after.conversations, messages := after.messages, controls := after.controls)
  }

  lemma EditOnlyWrites(db: Db, c: ConversationId, m: MessageId, owner: Option<UserId>, session: string, now: Time)
    ensures OnlyWriting(db, EditMessage(db, c, m, owner, session, now))
  {}

  lemma UpsertOnlyWrites(db: Db, c: ConversationId, u: UserId, body: Write, now: Time)
    ensures OnlyWriting(db, UpsertConversation(db, c, u, body, now))
  {}

  lemma DeleteOnlyWrites(db: Db, c: ConversationId, u: UserId)
    ensures OnlyWriting(db, DeleteConversation(db, c, u))
  {}

  /** Edits, uploads and deletes leave the runs, the ledger and its counters alone. */
  lemma WritingStep(cfg: Config, s: System, step: Step, after: System)
    requires (step.Edit? || step.Upsert? || step.Delete?) && after == Apply(cfg, s, step)
    ensures OnlyWriting(s.db, after.db) && after == s.(db := after.db)
  {
    match step
    case Edit(c, m, owner, session, now) => EditOnlyWrites(s.db, c, m, owner, session, now);
    case Upsert(c, u, body, now) => UpsertOnlyWrites(s.db, c, u, body, now);
    case Delete(c, u) => DeleteOnlyWrites(s.db, c, u);
  }

  /** A recovered workflow starts from the beginning, in a new execution of a run that has had one. */
  lemma RecoverKeepsDb(cfg: Config, s: System, step: Step, after: System)
    requires step.Recover? && after == Apply(cfg, s, step)
    ensures after == s.(execs := after.execs)
    ensures after == s || (step.e !in s.execs && step.of in s.execs
                           && after.execs == s.execs[step.e := s.execs[step.of].(place := AtStart)])
  {}

  lemma PlainKeepsRuns(cfg: Config, s: System, step: Step, after: System)
    requires step.SweepSecurity? || step.Grant? || step.Activate?
    requires after == Apply(cfg, s, step)
    ensures after.db.runs == s.db.runs && after.execs == s.execs && after.used == s.used
  {}

  lemma RestKeepsRuns(cfg: Config, s: System, step: Step, after: System)
    requires step.Edit? || step.Upsert? || step.Delete? || step.SweepSecurity? || step.Grant? || step.Activate?
             || step.Recover?
    requires after == Apply(cfg, s, step)
    ensures after.db.runs == s.db.runs && after.used == s.used
  {
    if step.Edit? || step.Upsert? || step.Delete? {
      WritingStep(cfg, s, step, after);
    } else if step.Recover? {
      RecoverKeepsDb(cfg, s, step, after);
    } else {
      PlainKeepsRuns(cfg, s, step, after);
    }
  }

  lemma SameRunsOk(cfg: Config, db: Db, after: Db)
    requires RunsOk(cfg, db) && after.runs == db.runs
    ensures RunsOk(cfg, after)
  {}

  lemma StepKeepsRuns(cfg: Config, s: System, step: Step, after: System)
    requires RunsOk(cfg, s.db) && after == Apply(cfg, s, step)
    ensures RunsOk(cfg, after.db)
  {
    if step.Conclude? || step.ConcludeFailed? || step.CancelRefused? {
      CloseStepKeepsRuns(cfg, s, step, after);
    } else if IsExecStep(step) {
      WorkStepKeepsRuns(cfg, s, step, after);
    } else if step.ClaimNext? || step.RenewLease? || step.Retry? {
      LeaseStepKeepsRuns(cfg, s, step, after);
    } else if step.CancelPolled? || step.RequestCancel? {
      CancelStepKeepsRuns(cfg, s, step, after);
    } else if step.Create? {
      CreateKeepsRuns(cfg, s.db, step.r, step.req, step.now);
    } else if step.SweepRuns? {
      SweepKeepsRuns(cfg, s.db, step.now);
    } else {
      RestKeepsRuns(cfg, s, step, after);
      SameRunsOk(cfg, s.db, after.db);
    }
  }

  lemma {:induction false} RunsOkAlways(cfg: Config, accounts: map<UserId, Account>, steps: seq<Step>)
    ensures RunsOk(cfg, Protocol.Run(cfg, Fresh(accounts), steps).db)
  {
    if steps != [] {
      RunsOkAlways(cfg, accounts, steps[..|steps| - 1]);
      StepKeepsRuns(cfg, Protocol.Run(cfg, Fresh(accounts), steps[..|steps| - 1]), steps[|steps| - 1],
                    Protocol.Run(cfg, Fresh(accounts), steps));
    }
  }

  lemma {:induction false} OneTerminalIndex(log: seq<Event>)
    requires |TerminalsOf(log)| <= 1
    ensures if TerminalsOf(log) == [] then forall i :: 0 <= i < |log| ==> !TerminalBody(log[i].body)
            else exists i :: && 0 <= i < |log| && log[i].body == TerminalsOf(log)[0] && TerminalBody(log[i].body)
                             && forall j :: 0 <= j < |log| && TerminalBody(log[j].body) ==> j == i
  {
    if log != [] {
      var n := |log| - 1;
      OneTerminalIndex(log[..n]);
      if TerminalBody(log[n].body) {
        assert TerminalsOf(log[..n]) == [];
        assert forall j :: 0 <= j < n ==> log[j] == log[..n][j];
      } else if TerminalsOf(log) != [] {
        var i :| 0 <= i < n && log[..n][i].body == TerminalsOf(log)[0] && TerminalBody(log[..n][i].body)
                 && forall j :: 0 <= j < n && TerminalBody(log[..n][j].body) ==> j == i;
        assert forall j :: 0 <= j < n ==> log[j] == log[..n][j];
      }
    }
  }

  ghost predicate LogShowsStatus(run: Run) {
    if Terminal(run.status) then
      exists i :: && 0 <= i < |run.log| && Announces(run.status, run.log[i].body)
                  && forall j :: 0 <= j < |run.log| && TerminalBody(run.log[j].body) ==> j == i
    else forall j :: 0 <= j < |run.log| ==> !TerminalBody(run.log[j].body)
  }

  lemma OkShowsStatus(cfg: Config, run: Run)
    requires RunOk(cfg, run) && Intact(run)
    ensures LogShowsStatus(run)
  {
    if Terminal(run.status) {
      OneTerminalIndex(run.log);
      assert TerminalsOf(run.log)[0] in TerminalsOf(run.log);
    }
  }

  // ---------------------------------------------------------------- the two allocators

  /** `max(sequence)` over the stored events, or 0. */
  function MaxSequence(log: seq<Event>): (n: nat) {
    if log == [] then 0 else Max(MaxSequence(log[..|log| - 1]), log[|log| - 1].sequence)
  }

  lemma {:induction false} MaxSequenceBelow(log: seq<Event>, bound: nat)
    requires forall i :: 0 <= i < |log| ==> log[i].sequence <= bound
    ensures MaxSequence(log) <= bound
  {
    if log != [] { MaxSequenceBelow(log[..|log| - 1], bound); }
  }

  /** Reading the stored maximum or trusting the run's counter gives the same next number. */
  lemma AllocatorsAgree(run: Run)
    requires Numbered(run)
    ensures Max(run.lastSequence, MaxSequence(run.log)) + 1 == run.lastSequence + 1
  {
    MaxSequenceBelow(run.log, run.lastSequence);
  }
}
