/** The termination gate: what a `terminate_conversation` disposition closes, and what reopens it. */
module TerminationGate {
  import opened Records
  import opened Transactions
  import opened Protocol
  import opened RunInvariants
  import opened RunTransitions

  predicate Closed(db: Db, m: MessageId, c: ConversationId, u: UserId) {
    && m in db.controls && db.controls[m].conversation == c && db.controls[m].owner == Some(u)
    && db.controls[m].action == TerminateAction
  }

  /** A user's control row lies in a stored conversation of that user. */
  ghost predicate ControlsHoused(db: Db) {
    forall m :: m in db.controls && db.controls[m].owner.Some? ==>
      && db.controls[m].conversation in db.conversations
      && db.conversations[db.controls[m].conversation].owner == db.controls[m].owner.value
  }

  // ---------------------------------------------------------------- what the gate refuses

  /** While the gate is closed every create that is not a retry is refused and changes nothing. */
  lemma ClosedRefusesCreates(cfg: Config, db: Db, m: MessageId, c: ConversationId, u: UserId, r: RunId, req: Request,
                             now: Time)
    requires Closed(db, m, c, u) && req.conversation == c && req.owner == Some(u)
    requires forall q :: q in db.runs ==> !SameRequest(db.runs[q], req)
    ensures CreateRun(cfg, db, r, req, now) == (db, RefusedTerminated)
  {
    assert OwnControl(db.controls[m], req);
  }

  /** While the gate is closed no upload stores the conversation as open. */
  lemma ClosedRefusesOpenUploads(db: Db, m: MessageId, c: ConversationId, u: UserId, v: UserId, body: Write, now: Time)
    requires ControlsHoused(db) && Closed(db, m, c, u)
    ensures var after := UpsertConversation(db, c, v, body, now);
            after == db || (c in after.conversations && after.conversations[c].terminated)
  {
    if db.conversations[c].owner == v { assert TerminationActive(db, c, v); }
  }

  // ---------------------------------------------------------------- what reopens it

  predicate EditsAtOrBefore(db: Db, step: Step, m: MessageId)
    requires step.Edit? && m in db.controls
  {
    && Editable(db, step.c, step.m, step.owner, step.session)
    && ControlOf(db.controls[m], step.c, step.owner, step.session)
    && db.controls[step.m].ordinal <= db.controls[m].ordinal
  }

  predicate DeletesIt(db: Db, step: Step, m: MessageId)
    requires step.Delete? && m in db.controls
  {
    && step.c in db.conversations && db.conversations[step.c].owner == step.u
    && db.controls[m].owner == Some(step.u) && db.controls[m].conversation == step.c
  }

  predicate PurgesIt(db: Db, step: Step, m: MessageId)
    requires step.SweepRuns?
  {
    exists r :: r in db.runs && Expired(db.runs[r], step.now) && db.runs[r].message == m
  }

  /** Another unfinished run carries the same message id and ends with another disposition. */
  predicate Overwrites(s: System, step: Step, m: MessageId)
    requires step.Conclude?
  {
    && At(s, step.e, Answering) && ValidTurn(step.turn) && Unfinished(s.db, s.execs[step.e].run)
    && s.db.runs[s.execs[step.e].run].message == m && TurnAction(step.turn) != TerminateAction
  }

  predicate Reopens(s: System, step: Step, m: MessageId) {
    m in s.db.controls &&
    match step
    case Edit(_, _, _, _, _) => EditsAtOrBefore(s.db, step, m)
    case Delete(_, _) => DeletesIt(s.db, step, m)
    case SweepRuns(_) => PurgesIt(s.db, step, m)
    case Conclude(_, _, _) => Overwrites(s, step, m)
    case _ => false
  }

  lemma ConcludeControls(db: Db, r: RunId, turn: Turn, now: Time)
    ensures ConcludeRun(db, r, turn, now).controls ==
            if Unfinished(db, r) then SetAction(db.controls, db.runs[r].message, TurnAction(turn)) else db.controls
  {}

  lemma FailControls(db: Db, r: RunId, code: string, now: Time)
    ensures FailRun(db, r, code, now).controls == db.controls
    ensures MarkCancelled(db, r, now).controls == db.controls
  {}

  lemma CreateForUserControls(cfg: Config, db: Db, r: RunId, u: UserId, req: Request, ordinal: nat, now: Time)
    ensures var (after, outcome) := CreateForUser(cfg, db, r, u, req, ordinal, now);
            outcome.Created? ==>
              && req.message !in db.controls
              && after.controls ==
                  db.controls[req.message := Control(req.conversation, req.session, req.owner, ordinal, Pending)]
  {}

  lemma CreateControls(cfg: Config, db: Db, r: RunId, req: Request, now: Time)
    ensures var (after, outcome) := CreateRun(cfg, db, r, req, now);
            if outcome.Created? then
              && req.message !in db.controls && req.message in after.controls
              && after.controls == db.controls[req.message := after.controls[req.message]]
              && after.controls[req.message].action == Pending
              && after.controls[req.message].owner == req.owner
              && after.controls[req.message].conversation == req.conversation
            else after == db
  {
    CreateAddsOneRun(cfg, db, r, req, now);
    if req.owner.Some? { CreateForUserControls(cfg, db, r, req.owner.value, req, NextControl(db, req), now); }
  }

  /** The execution's run is finished by this step. */
  predicate Concludes(s: System, step: Step) {
    step.Conclude? && At(s, step.e, Answering) && ValidTurn(step.turn) && Unfinished(s.db, s.execs[step.e].run)
  }

  lemma ExecControls(cfg: Config, s: System, step: Step, after: System)
    requires IsExecStep(step) && after == Apply(cfg, s, step)
    ensures after.db.controls == if Concludes(s, step)
                                 then SetAction(s.db.controls, s.db.runs[s.execs[step.e].run].message,
                                                TurnAction(step.turn))
                                 else s.db.controls
  {
    ApplyExec(cfg, s, step);
    if step.Conclude? {
      if At(s, step.e, Answering) { ConcludeControls(s.db, s.execs[step.e].run, step.turn, step.now); }
    } else if step.ConcludeFailed? {
      if At(s, step.e, Answering) { FailControls(s.db, s.execs[step.e].run, step.code, step.now); }
    } else if step.CancelRefused? {
      if At(s, step.e, Refused) { FailControls(s.db, s.execs[step.e].run, "", step.now); }
    } else {
      WorkKeepsWriting(s, step, after);
    }
  }

  lemma WorkKeepsWriting(s: System, step: Step, after: System)
    requires IsExecStep(step) && !step.Conclude? && !step.ConcludeFailed? && !step.CancelRefused?
             && after == ExecStep(s, step)
    ensures after.db.controls == s.db.controls && after.db.conversations == s.db.conversations
  {}

  lemma ReleaseKeepsWriting(cfg: Config, db: Db, r: RunId, worker: WorkerId, code: string, now: Time)
    ensures var after := ReleaseForRetry(cfg, db, r, worker, code, now);
            after.controls == db.controls && after.conversations == db.conversations
  {}

  lemma RequestKeepsWriting(db: Db, r: RunId, now: Time)
    ensures var after := RequestCancellation(db, r, now);
            after.controls == db.controls && after.conversations == db.conversations
  {}

  lemma QuietKeepsWriting(cfg: Config, s: System, step: Step, after: System)
    requires step.ClaimNext? || step.RenewLease? || step.SweepSecurity? || step.Grant? || step.Activate?
             || step.Recover?
    requires after == Apply(cfg, s, step)
    ensures after.db.controls == s.db.controls && after.db.conversations == s.db.conversations
  {}

  /** A step of the queue, the leases or the administration. */
  predicate IsDispatch(step: Step) {
    || step.ClaimNext? || step.RenewLease? || step.Retry? || step.RequestCancel?
    || step.SweepSecurity? || step.Grant? || step.Activate? || step.Recover?
  }

  lemma DispatchKeepsWriting(cfg: Config, s: System, step: Step, after: System)
    requires IsDispatch(step) && after == Apply(cfg, s, step)
    ensures after.db.controls == s.db.controls && after.db.conversations == s.db.conversations
  {
    if step.Retry? {
      ReleaseKeepsWriting(cfg, s.db, step.r, step.worker, step.code, step.now);
    } else if step.RequestCancel? {
      RequestKeepsWriting(s.db, step.r, step.now);
    } else {
      QuietKeepsWriting(cfg, s, step, after);
    }
  }

  lemma UploadKeepsControls(db: Db, c: ConversationId, u: UserId, body: Write, now: Time)
    ensures UpsertConversation(db, c, u, body, now).controls == db.controls
  {}

  lemma OtherKeepsControls(cfg: Config, s: System, step: Step, after: System)
    requires (IsDispatch(step) || step.CancelPolled? || step.Upsert?) && after == Apply(cfg, s, step)
    ensures after.db.controls == s.db.controls
  {
    if step.CancelPolled? {
      FailControls(s.db, step.r, "", step.now);
    } else if step.Upsert? {
      UploadKeepsControls(s.db, step.c, step.u, step.write, step.now);
    } else {
      DispatchKeepsWriting(cfg, s, step, after);
    }
  }

  lemma EditDrops(db: Db, c: ConversationId, m: MessageId, owner: Option<UserId>, session: string, now: Time)
    ensures EditMessage(db, c, m, owner, session, now).controls ==
            if Editable(db, c, m, owner, session)
                then DropControls(db.controls, c, owner, session, db.controls[m].ordinal)
            else db.controls
  {}

  lemma EditControls(db: Db, c: ConversationId, m: MessageId, owner: Option<UserId>, session: string, now: Time,
                     q: MessageId)
    requires q in db.controls
    ensures var after := EditMessage(db, c, m, owner, session, now).controls;
            var dropped := && Editable(db, c, m, owner, session) && ControlOf(db.controls[q], c, owner, session)
                           && db.controls[m].ordinal <= db.controls[q].ordinal;
            if dropped then q !in after else q in after && after[q] == db.controls[q]
  {
    EditDrops(db, c, m, owner, session, now);
  }

  lemma EditOpens(cfg: Config, s: System, step: Step, after: System, m: MessageId, c: ConversationId, u: UserId)
    requires Closed(s.db, m, c, u) && step.Edit? && after == Apply(cfg, s, step)
    ensures Closed(after.db, m, c, u) <==> !Reopens(s, step, m)
  {
    EditControls(s.db, step.c, step.m, step.owner, step.session, step.now, m);
  }

  lemma RemovalOpens(cfg: Config, s: System, step: Step, after: System, m: MessageId, c: ConversationId, u: UserId)
    requires Closed(s.db, m, c, u) && (step.Delete? || step.SweepRuns?) && after == Apply(cfg, s, step)
    ensures Closed(after.db, m, c, u) <==> !Reopens(s, step, m)
  {}

  lemma ConcludeOpens(cfg: Config, s: System, step: Step, after: System, m: MessageId, c: ConversationId, u: UserId)
    requires Closed(s.db, m, c, u) && IsExecStep(step) && after == Apply(cfg, s, step)
    ensures Closed(after.db, m, c, u) <==> !Reopens(s, step, m)
  {
    ExecControls(cfg, s, step, after);
  }

  /** A closed gate stays closed over a step exactly when the step is none of the four openers. */
  lemma ClosedUnlessReopened(cfg: Config, s: System, step: Step, after: System, m: MessageId, c: ConversationId,
                             u: UserId)
    requires Closed(s.db, m, c, u) && after == Apply(cfg, s, step)
    ensures Closed(after.db, m, c, u) <==> !Reopens(s, step, m)
  {
    if step.Create? {
      CreateControls(cfg, s.db, step.r, step.req, step.now);
    } else if IsExecStep(step) {
      ConcludeOpens(cfg, s, step, after, m, c, u);
    } else if step.Edit? {
      EditOpens(cfg, s, step, after, m, c, u);
    } else if step.Delete? || step.SweepRuns? {
      RemovalOpens(cfg, s, step, after, m, c, u);
    } else {
      OtherKeepsControls(cfg, s, step, after);
    }
  }

  // ---------------------------------------------------------------- where the invariant comes from

  lemma EnterHouses(conversations: map<ConversationId, Conversation>, messages: map<MessageId, MessageRecord>,
                    u: UserId, req: Request, now: Time)
    ensures var e := EnterConversation(conversations, messages, u, req, now);
            e.Entered? ==>
              && req.conversation in e.conversations && e.conversations[req.conversation].owner == u
              && (forall c :: c in conversations ==>
                  c in e.conversations && e.conversations[c].owner == conversations[c].owner)
  {}

  lemma CreateForUserConversations(cfg: Config, db: Db, r: RunId, u: UserId, req: Request, ordinal: nat, now: Time)
    ensures var (after, outcome) := CreateForUser(cfg, db, r, u, req, ordinal, now);
            var e := EnterConversation(db.conversations, db.messages, u, req, now);
            outcome.Created? ==> e.Entered? && after.conversations == e.conversations
  {}

  lemma CreateEnters(cfg: Config, db: Db, r: RunId, req: Request, now: Time)
    ensures var (after, outcome) := CreateRun(cfg, db, r, req, now);
            outcome.Created? ==>
              && (forall c :: c in db.conversations ==>
                  c in after.conversations && after.conversations[c].owner == db.conversations[c].owner)
              && (req.owner.Some? ==> req.conversation in after.conversations
                                      && after.conversations[req.conversation].owner == req.owner.value)
  {
    if req.owner.Some? {
      CreateForUserConversations(cfg, db, r, req.owner.value, req, NextControl(db, req), now);
      EnterHouses(db.conversations, db.messages, req.owner.value, req, now);
    }
  }

  lemma AddHoused(db: Db, after: Db, m: MessageId)
    requires ControlsHoused(db) && m in after.controls && after.controls == db.controls[m := after.controls[m]]
    requires forall c :: c in db.conversations ==>
             c in after.conversations && after.conversations[c].owner == db.conversations[c].owner
    requires var k := after.controls[m];
             k.owner.Some? ==>
                 k.conversation in after.conversations && after.conversations[k.conversation].owner == k.owner.value
    ensures ControlsHoused(after)
  {}

  lemma CreateHouses(cfg: Config, db: Db, r: RunId, req: Request, now: Time)
    requires ControlsHoused(db)
    ensures ControlsHoused(CreateRun(cfg, db, r, req, now).0)
  {
    var (after, outcome) := CreateRun(cfg, db, r, req, now);
    CreateControls(cfg, db, r, req, now);
    CreateEnters(cfg, db, r, req, now);
    if outcome.Created? { AddHoused(db, after, req.message); }
  }

  /** Every conversation stays with its owner, and a terminated one stays terminated. */
  predicate Settled(before: map<ConversationId, Conversation>, after: map<ConversationId, Conversation>) {
    forall c :: c in before ==>
      c in after && after[c].owner == before[c].owner && (before[c].terminated ==> after[c].terminated)
  }

  lemma FinalizeSettles(db: Db, r: RunId, status: Status, bodies: seq<Body>,
                        marked: Option<(MessageId, SafetyAction)>, answer: Option<Text>, error: Option<string>,
                        now: Time)
    ensures Settled(db.conversations, FinalizeRun(db, r, status, bodies, marked, answer, error, now).conversations)
  {}

  lemma MarkSettles(db: Db, r: RunId, now: Time)
    ensures Settled(db.conversations, MarkCancelled(db, r, now).conversations)
  {}

  lemma EndSettles(s: System, step: Step, after: System)
    requires (step.Conclude? || step.ConcludeFailed?) && At(s, step.e, Answering) && after == ExecStep(s, step)
    ensures Settled(s.db.conversations, after.db.conversations)
  {
    var r := s.execs[step.e].run;
    if step.ConcludeFailed? {
      FinalizeSettles(s.db, r, Failed, [RunFailed(step.code, UNREACHABLE_COPY)], None, None, Some(step.code), step.now);
    } else if r in s.db.runs {
      FinalizeSettles(s.db, r, TurnStatus(step.turn), TurnEvents(step.turn),
                      Some((s.db.runs[r].message, TurnAction(step.turn))),
                      TurnAnswer(step.turn), None, step.now);
    }
  }

  lemma ExecSettles(cfg: Config, s: System, step: Step, after: System)
    requires IsExecStep(step) && after == Apply(cfg, s, step)
    ensures Settled(s.db.conversations, after.db.conversations)
  {
    ApplyExec(cfg, s, step);
    if step.Conclude? || step.ConcludeFailed? {
      if At(s, step.e, Answering) { EndSettles(s, step, after); }
    } else if step.CancelRefused? {
      if At(s, step.e, Refused) { MarkSettles(s.db, s.execs[step.e].run, step.now); }
    } else {
      WorkKeepsWriting(s, step, after);
    }
  }

  /** Apart from creates, uploads, edits and deletes a step settles every conversation. */
  lemma OtherSettles(cfg: Config, s: System, step: Step, after: System)
    requires !step.Create? && !step.Upsert? && !step.Edit? && !step.Delete? && after == Apply(cfg, s, step)
    ensures Settled(s.db.conversations, after.db.conversations)
  {
    if IsExecStep(step) {
      ExecSettles(cfg, s, step, after);
    } else if step.CancelPolled? {
      MarkSettles(s.db, step.r, step.now);
    } else if step.SweepRuns? {
      assert after.db.conversations == s.db.conversations;
    } else {
      DispatchKeepsWriting(cfg, s, step, after);
    }
  }

  predicate OwnersKept(before: map<ConversationId, Conversation>, after: map<ConversationId, Conversation>) {
    forall c :: c in before ==> c in after && after[c].owner == before[c].owner
  }

  lemma FrameHoused(before: Db, after: Db)
    requires ControlsHoused(before) && OwnersKept(before.conversations, after.conversations)
    requires after.controls.Keys <= before.controls.Keys
    requires forall m :: m in after.controls ==>
               after.controls[m].owner == before.controls[m].owner
                   && after.controls[m].conversation == before.controls[m].conversation
    ensures ControlsHoused(after)
  {}

  lemma DropKeepsRest(controls: map<MessageId, Control>, c: ConversationId, owner: Option<UserId>, session: string,
                      ordinal: nat)
    ensures var left := DropControls(controls, c, owner, session, ordinal);
            left.Keys <= controls.Keys && forall m :: m in left ==> left[m] == controls[m]
  {}

  lemma EditKeepsOwners(db: Db, c: ConversationId, m: MessageId, owner: Option<UserId>, session: string, now: Time)
    ensures OwnersKept(db.conversations, EditMessage(db, c, m, owner, session, now).conversations)
  {}

  lemma EditHouses(db: Db, c: ConversationId, m: MessageId, owner: Option<UserId>, session: string, now: Time)
    requires ControlsHoused(db)
    ensures ControlsHoused(EditMessage(db, c, m, owner, session, now))
  {
    EditDrops(db, c, m, owner, session, now);
    EditKeepsOwners(db, c, m, owner, session, now);
    if Editable(db, c, m, owner, session) { DropKeepsRest(db.controls, c, owner, session, db.controls[m].ordinal); }
    FrameHoused(db, EditMessage(db, c, m, owner, session, now));
  }

  lemma UploadHouses(db: Db, c: ConversationId, u: UserId, body: Write, now: Time)
    requires ControlsHoused(db)
    ensures ControlsHoused(UpsertConversation(db, c, u, body, now))
  {
    FrameHoused(db, UpsertConversation(db, c, u, body, now));
  }

  lemma DeleteHouses(db: Db, c: ConversationId, u: UserId)
    requires ControlsHoused(db)
    ensures ControlsHoused(DeleteConversation(db, c, u))
  {}

  lemma RestHouses(cfg: Config, s: System, step: Step, after: System)
    requires ControlsHoused(s.db) && after == Apply(cfg, s, step)
    requires !step.Create? && !step.Upsert? && !step.Edit? && !step.Delete?
    ensures ControlsHoused(after.db)
  {
    OtherSettles(cfg, s, step, after);
    if IsExecStep(step) {
      ExecControls(cfg, s, step, after);
    } else if !step.SweepRuns? {
      OtherKeepsControls(cfg, s, step, after);
    } else {
      PurgeKeepsControls(s.db, step.now);
    }
    FrameHoused(s.db, after.db);
  }

  lemma PurgeKeepsControls(db: Db, now: Time)
    ensures var after := PurgeRuns(db, now).controls;
            after.Keys <= db.controls.Keys && forall m :: m in after ==> after[m] == db.controls[m]
  {}

  lemma StepKeepsHoused(cfg: Config, s: System, step: Step, after: System)
    requires ControlsHoused(s.db) && after == Apply(cfg, s, step)
    ensures ControlsHoused(after.db)
  {
    if step.Create? {
      CreateHouses(cfg, s.db, step.r, step.req, step.now);
    } else if step.Edit? {
      EditHouses(s.db, step.c, step.m, step.owner, step.session, step.now);
    } else if step.Upsert? {
      UploadHouses(s.db, step.c, step.u, step.write, step.now);
    } else if step.Delete? {
      DeleteHouses(s.db, step.c, step.u);
    } else {
      RestHouses(cfg, s, step, after);
    }
  }

  lemma {:induction false} HousedAlways(cfg: Config, accounts: map<UserId, Account>, steps: seq<Step>, s: System)
    requires s == Protocol.Run(cfg, Fresh(accounts), steps)
    ensures ControlsHoused(s.db)
  {
    if steps != [] {
      var before := Protocol.Run(cfg, Fresh(accounts), steps[..|steps| - 1]);
      HousedAlways(cfg, accounts, steps[..|steps| - 1], before);
      StepKeepsHoused(cfg, before, steps[|steps| - 1], s);
    }
  }

  // ---------------------------------------------------------------- the stored record

  /** The owner edits a message of the conversation whose record is stored and theirs. */
  predicate OwnerEdits(db: Db, step: Step, c: ConversationId, u: UserId) {
    && step.Edit? && step.c == c && step.owner == Some(u) && Editable(db, c, step.m, step.owner, step.session)
    && step.m in db.messages && db.messages[step.m].owner == u
  }

  predicate OwnerDeletes(step: Step, c: ConversationId, u: UserId) {
    step.Delete? && step.c == c && step.u == u
  }

  predicate StoredTerminated(db: Db, c: ConversationId) {
    c in db.conversations && db.conversations[c].terminated
  }

  lemma EditOfRecord(db: Db, c: ConversationId, u: UserId, at: ConversationId, m: MessageId, owner: Option<UserId>,
                     session: string, now: Time)
    requires StoredTerminated(db, c) && db.conversations[c].owner == u && ControlsHoused(db)
    ensures var after := EditMessage(db, at, m, owner, session, now);
            c in after.conversations
            && (after.conversations[c].terminated <==>
                !(at == c && owner == Some(u) && Editable(db, c, m, owner, session) && m in db.messages
                    && db.messages[m].owner == u))
  {}

  lemma UploadOfRecord(db: Db, m: MessageId, c: ConversationId, u: UserId, at: ConversationId, v: UserId, body: Write,
                       now: Time)
    requires StoredTerminated(db, c) && db.conversations[c].owner == u && Closed(db, m, c, u)
    ensures StoredTerminated(UpsertConversation(db, at, v, body, now), c)
  {
    if v == u { assert TerminationActive(db, c, v); }
  }

  lemma CreateOfRecord(cfg: Config, db: Db, m: MessageId, c: ConversationId, u: UserId, r: RunId, req: Request,
                       now: Time)
    requires StoredTerminated(db, c)
    ensures StoredTerminated(CreateRun(cfg, db, r, req, now).0, c)
  {
    if req.owner.Some? {
      CreateForUserConversations(cfg, db, r, req.owner.value, req, NextControl(db, req), now);
      EnteringKeepsRecord(db.conversations, db.messages, req.owner.value, req, now, c);
    }
  }

  lemma EnteringKeepsRecord(conversations: map<ConversationId, Conversation>, messages: map<MessageId, MessageRecord>,
                            u: UserId, req: Request, now: Time, c: ConversationId)
    requires c in conversations && conversations[c].terminated
    ensures var e := EnterConversation(conversations, messages, u, req, now);
            e.Entered? ==> c in e.conversations && e.conversations[c].terminated
  {}

  lemma EditStepOfRecord(cfg: Config, s: System, step: Step, after: System, m: MessageId, c: ConversationId, u: UserId)
    requires step.Edit? && after == Apply(cfg, s, step)
    requires ControlsHoused(s.db) && Closed(s.db, m, c, u) && StoredTerminated(s.db, c)
    ensures c in after.db.conversations && (after.db.conversations[c].terminated <==> !OwnerEdits(s.db, step, c, u))
  {
    EditOfRecord(s.db, c, u, step.c, step.m, step.owner, step.session, step.now);
  }

  lemma DeleteStepOfRecord(cfg: Config, s: System, step: Step, after: System, m: MessageId, c: ConversationId,
                           u: UserId)
    requires step.Delete? && after == Apply(cfg, s, step)
    requires ControlsHoused(s.db) && Closed(s.db, m, c, u) && StoredTerminated(s.db, c)
    ensures if OwnerDeletes(step, c, u) then c !in after.db.conversations else StoredTerminated(after.db, c)
  {}

  /** What becomes of the stored record of a conversation whose gate is closed, over any step: it is
      gone exactly when its owner deletes the conversation, and it is stored as open exactly when its
      owner edits a message whose record is stored and theirs. */
  lemma TerminatedRecordUnlessEdited(cfg: Config, s: System, step: Step, after: System, m: MessageId,
                                     c: ConversationId, u: UserId)
    requires after == Apply(cfg, s, step)
    requires ControlsHoused(s.db) && Closed(s.db, m, c, u) && StoredTerminated(s.db, c)
    ensures c !in after.db.conversations <==> OwnerDeletes(step, c, u)
    ensures c in after.db.conversations ==> (!after.db.conversations[c].terminated <==> OwnerEdits(s.db, step, c, u))
  {
    if step.Create? {
      CreateOfRecord(cfg, s.db, m, c, u, step.r, step.req, step.now);
    } else if step.Upsert? {
      UploadOfRecord(s.db, m, c, u, step.c, step.u, step.write, step.now);
    } else if step.Edit? {
      EditStepOfRecord(cfg, s, step, after, m, c, u);
    } else if step.Delete? {
      DeleteStepOfRecord(cfg, s, step, after, m, c, u);
    } else {
      OtherSettles(cfg, s, step, after);
    }
  }

  /** Gate and record part over a step exactly when the owner edits a stored message of theirs that comes
      after the terminated one: the gate stays closed while the record says the conversation is open. */
  lemma GateAndRecordPart(cfg: Config, s: System, step: Step, after: System, m: MessageId, c: ConversationId, u: UserId)
    requires after == Apply(cfg, s, step)
    requires ControlsHoused(s.db) && Closed(s.db, m, c, u) && StoredTerminated(s.db, c)
    ensures (Closed(after.db, m, c, u) && !StoredTerminated(after.db, c)) <==>
            (OwnerEdits(s.db, step, c, u) && s.db.controls[m].ordinal < s.db.controls[step.m].ordinal)
  {
    ClosedUnlessReopened(cfg, s, step, after, m, c, u);
    TerminatedRecordUnlessEdited(cfg, s, step, after, m, c, u);
  }

  // ---------------------------------------------------------------- message ids that are not reused

  /** Stored runs have distinct message ids, and a terminated message belongs to a finished run. */
  ghost predicate MessagesDistinct(db: Db) {
    && (forall q, r :: q in db.runs && r in db.runs && db.runs[q].message == db.runs[r].message ==> q == r)
    && (forall m, r ::
          && m in db.controls && db.controls[m].action == TerminateAction
          && r in db.runs && db.runs[r].message == m ==>
            Terminal(db.runs[r].status))
  }

  predicate ReusesMessage(db: Db, step: Step) {
    step.Create? && exists r :: r in db.runs && db.runs[r].message == step.req.message
  }

  lemma CreateKeepsDistinct(cfg: Config, s: System, step: Step, after: System)
    requires step.Create? && MessagesDistinct(s.db) && !ReusesMessage(s.db, step) && after == Apply(cfg, s, step)
    ensures MessagesDistinct(after.db)
  {
    CreateStep(cfg, s, step, after);
    if after != s {
      CreateControls(cfg, s.db, step.r, step.req, step.now);
      AddedMessageIsDistinct(s.db, after.db, step.r, NewRun(cfg, step.req, step.now), step.req.message);
    }
  }

  lemma AddedMessageIsDistinct(db: Db, after: Db, r: RunId, run: Run, m: MessageId)
    requires MessagesDistinct(db) && run.message == m && (forall q :: q in db.runs ==> db.runs[q].message != m)
    requires after.runs == db.runs[r := run] && m in after.controls && after.controls[m].action == Pending
    requires after.controls == db.controls[m := after.controls[m]]
    ensures MessagesDistinct(after)
  {}

  lemma DistinctKept(cfg: Config, s: System, step: Step, after: System)
    requires Sound(cfg, s) && MessagesDistinct(s.db) && !ReusesMessage(s.db, step) && after == Apply(cfg, s, step)
    ensures MessagesDistinct(after.db)
  {
    if step.Create? {
      CreateKeepsDistinct(cfg, s, step, after);
    } else {
      IdentityStays(cfg, s, step, after);
      forall m, r | m in after.db.controls && after.db.controls[m].action == TerminateAction && r in after.db.runs
                    && after.db.runs[r].message == m
        ensures Terminal(after.db.runs[r].status)
      {
        TerminationFinishes(cfg, s, step, after, m, r);
      }
    }
  }

  lemma WhereTerminationComesFrom(cfg: Config, s: System, step: Step, after: System, m: MessageId)
    requires after == Apply(cfg, s, step) && !step.Create?
    requires m in after.db.controls && after.db.controls[m].action == TerminateAction
    ensures (m in s.db.controls && s.db.controls[m].action == TerminateAction)
            || (Concludes(s, step) && s.db.runs[s.execs[step.e].run].message == m)
  {
    if IsExecStep(step) {
      ExecControls(cfg, s, step, after);
    } else if step.Edit? {
      EditDrops(s.db, step.c, step.m, step.owner, step.session, step.now);
    } else if step.SweepRuns? {
      PurgeKeepsControls(s.db, step.now);
    } else if !step.Delete? {
      OtherKeepsControls(cfg, s, step, after);
    }
  }

  /** A control becomes terminated only together with the run that carries its message. */
  lemma TerminationFinishes(cfg: Config, s: System, step: Step, after: System, m: MessageId, r: RunId)
    requires after == Apply(cfg, s, step) && RunsOk(cfg, s.db) && MessagesDistinct(s.db) && !step.Create?
    requires m in after.db.controls && after.db.controls[m].action == TerminateAction
    requires r in s.db.runs && s.db.runs[r].message == m && r in after.db.runs
    ensures Terminal(after.db.runs[r].status)
  {
    WhereTerminationComesFrom(cfg, s, step, after, m);
    if Terminal(s.db.runs[r].status) {
      TerminalIsAbsorbing(cfg, s, step, after, r);
    } else {
      assert s.execs[step.e].run == r;
      ApplyExec(cfg, s, step);
      ConcludeFinishes(s, step, after, r);
    }
  }

  lemma ConcludeFinishes(s: System, step: Step, after: System, r: RunId)
    requires Concludes(s, step) && s.execs[step.e].run == r && after == ExecStep(s, step)
    ensures r in after.db.runs && Terminal(after.db.runs[r].status)
  {}

  /** No create in the history names a message that a stored run already carries. */
  ghost predicate FreshMessages(cfg: Config, s: System, steps: seq<Step>) {
    steps == [] ||
    (&& FreshMessages(cfg, s, steps[..|steps| - 1])
     && !ReusesMessage(Protocol.Run(cfg, s, steps[..|steps| - 1]).db, steps[|steps| - 1]))
  }

  lemma {:induction false} DistinctAlways(cfg: Config, accounts: map<UserId, Account>, steps: seq<Step>, s: System)
    requires s == Protocol.Run(cfg, Fresh(accounts), steps) && FreshMessages(cfg, Fresh(accounts), steps)
    ensures MessagesDistinct(s.db)
  {
    if steps != [] {
      var before := Protocol.Run(cfg, Fresh(accounts), steps[..|steps| - 1]);
      DistinctAlways(cfg, accounts, steps[..|steps| - 1], before);
      SoundAlways(cfg, accounts, steps[..|steps| - 1], before);
      DistinctKept(cfg, before, steps[|steps| - 1], s);
    }
  }

  lemma DistinctIsNotOverwritten(s: System, step: Step, m: MessageId, c: ConversationId, u: UserId)
    requires MessagesDistinct(s.db) && Closed(s.db, m, c, u) && step.Conclude?
    ensures !Overwrites(s, step, m)
  {}

  lemma DistinctReopens(cfg: Config, s: System, step: Step, after: System, m: MessageId, c: ConversationId, u: UserId)
    requires MessagesDistinct(s.db) && Closed(s.db, m, c, u) && after == Apply(cfg, s, step)
    ensures !Closed(after.db, m, c, u) <==>
              (step.Edit? && EditsAtOrBefore(s.db, step, m)) || (step.Delete? && DeletesIt(s.db, step, m))
              || (step.SweepRuns? && PurgesIt(s.db, step, m))
  {
    ClosedUnlessReopened(cfg, s, step, after, m, c, u);
    if step.Conclude? { DistinctIsNotOverwritten(s, step, m, c, u); }
  }

  /** Where message ids are not reused, only an edit at or before the message, a delete of the
      conversation or a purge of the run reopens a closed gate. */
  lemma OnlyEditDeleteOrPurgeReopens(cfg: Config, accounts: map<UserId, Account>, steps: seq<Step>, s: System,
                                     step: Step, after: System, m: MessageId, c: ConversationId, u: UserId)
    requires s == Protocol.Run(cfg, Fresh(accounts), steps) && FreshMessages(cfg, Fresh(accounts), steps)
    requires Closed(s.db, m, c, u) && after == Apply(cfg, s, step)
    ensures !Closed(after.db, m, c, u) <==>
              (step.Edit? && EditsAtOrBefore(s.db, step, m)) || (step.Delete? && DeletesIt(s.db, step, m))
              || (step.SweepRuns? && PurgesIt(s.db, step, m))
  {
    DistinctAlways(cfg, accounts, steps, s);
    DistinctReopens(cfg, s, step, after, m, c, u);
  }

  // ---------------------------------------------------------------- whole histories

  /** A history in which no step is an opener of the gate. */
  ghost predicate NeverReopened(cfg: Config, s: System, steps: seq<Step>, m: MessageId) {
    steps == [] ||
    (&& NeverReopened(cfg, s, steps[..|steps| - 1], m)
     && !Reopens(Protocol.Run(cfg, s, steps[..|steps| - 1]), steps[|steps| - 1], m))
  }

  lemma {:induction false} GateStands(cfg: Config, s: System, steps: seq<Step>, later: System, m: MessageId,
                                      c: ConversationId, u: UserId)
    requires Closed(s.db, m, c, u) && NeverReopened(cfg, s, steps, m) && later == Protocol.Run(cfg, s, steps)
    ensures Closed(later.db, m, c, u)
  {
    if steps != [] {
      var before := Protocol.Run(cfg, s, steps[..|steps| - 1]);
      GateStands(cfg, s, steps[..|steps| - 1], before, m, c, u);
      ClosedUnlessReopened(cfg, before, steps[|steps| - 1], later, m, c, u);
    }
  }

  /** Once the gate has closed, every new create for the conversation is refused and changes nothing,
      however much later, as long as none of the steps in between is an opener. */
  lemma ClosedGateRefuses(cfg: Config, s: System, steps: seq<Step>, later: System, m: MessageId, c: ConversationId,
                          u: UserId, r: RunId, req: Request, now: Time)
    requires Closed(s.db, m, c, u) && NeverReopened(cfg, s, steps, m) && later == Protocol.Run(cfg, s, steps)
    requires req.conversation == c && req.owner == Some(u)
    requires forall q :: q in later.db.runs ==> !SameRequest(later.db.runs[q], req)
    ensures CreateRun(cfg, later.db, r, req, now) == (later.db, RefusedTerminated)
  {
    GateStands(cfg, s, steps, later, m, c, u);
    ClosedRefusesCreates(cfg, later.db, m, c, u, r, req, now);
  }

  /** No step of the history is an edit by the owner of a stored message of theirs. */
  ghost predicate NeverEdited(cfg: Config, s: System, steps: seq<Step>, c: ConversationId, u: UserId) {
    steps == [] ||
    (&& NeverEdited(cfg, s, steps[..|steps| - 1], c, u)
     && !OwnerEdits(Protocol.Run(cfg, s, steps[..|steps| - 1]).db, steps[|steps| - 1], c, u))
  }

  lemma {:induction false} RecordStandsFrom(cfg: Config, s: System, steps: seq<Step>, later: System, m: MessageId,
                                            c: ConversationId, u: UserId)
    requires ControlsHoused(s.db) && Closed(s.db, m, c, u) && StoredTerminated(s.db, c)
    requires NeverReopened(cfg, s, steps, m) && NeverEdited(cfg, s, steps, c, u) && later == Protocol.Run(cfg, s, steps)
    ensures ControlsHoused(later.db) && Closed(later.db, m, c, u) && StoredTerminated(later.db, c)
  {
    if steps != [] {
      var before, step := Protocol.Run(cfg, s, steps[..|steps| - 1]), steps[|steps| - 1];
      RecordStandsFrom(cfg, s, steps[..|steps| - 1], before, m, c, u);
      StepKeepsHoused(cfg, before, step, later);
      ClosedUnlessReopened(cfg, before, step, later, m, c, u);
      TerminatedRecordUnlessEdited(cfg, before, step, later, m, c, u);
    }
  }

  /** From any reachable state with a closed gate and a terminated record: the record stays terminated
      as long as nothing opens the gate and the owner edits none of their stored messages. */
  lemma RecordStands(cfg: Config, accounts: map<UserId, Account>, history: seq<Step>, s: System, steps: seq<Step>,
                     later: System, m: MessageId, c: ConversationId, u: UserId)
    requires s == Protocol.Run(cfg, Fresh(accounts), history) && later == Protocol.Run(cfg, s, steps)
    requires Closed(s.db, m, c, u) && StoredTerminated(s.db, c)
    requires NeverReopened(cfg, s, steps, m) && NeverEdited(cfg, s, steps, c, u)
    ensures StoredTerminated(later.db, c)
  {
    HousedAlways(cfg, accounts, history, s);
    RecordStandsFrom(cfg, s, steps, later, m, c, u);
  }
}
