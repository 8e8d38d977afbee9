/** The run service as a transition system.

    The state is the committed tables together with every execution that a claim has started. An
    execution keeps its place in the workflow after its lease is lost, so stale ones go on taking
    steps. One step is one committed transaction; a history is any sequence of steps by any
    number of clients, workers and retention sweeps, at any times. */
module Protocol {
  import opened Records
  import opened Transactions

  type ExecId = nat

  /** Where an execution stands between two transactions of the workflow. */
  datatype Place = AtStart | StatusSet | Refused | ChargeDone | Answering | Over

  datatype Exec = Exec(run: RunId, worker: WorkerId, place: Place)

  datatype System = System(
    db: Db,
    execs: map<ExecId, Exec>,
    checkpoints: set<RunId>,   // runs whose mark_working step the workflow engine has recorded
    used: set<RunId>,          // run identifiers handed out so far
    cutoff: Option<Time>)      // the latest cutoff of a security purge

  datatype Turn =
    | AnswerTurn(text: Text, title: Option<Text>, urgent: bool)
    | ArchiveTurn(title: Option<Text>)
    | TerminateTurn

  const ARCHIVES_COPY: Text :=
    Words("The Archives contain nothing I can provide for that inquiry. Ask of another matter, Tenno.")

  /** `rstrip`. */
  function Stripped(s: Text): (text: Text)
    ensures text <= s
  {
    if s != [] && ServerSpace(s[|s| - 1]) then Stripped(s[..|s| - 1]) else s
  }

  /** The answer ends at a boundary: a mark that ends a sentence, a closing bracket or a code fence. */
  predicate EndsComplete(s: Text) {
    var t := Stripped(s);
    && t != []
    && (|| t[|t| - 1] in Words(".!?)]}")
        || (|t| >= 3 && t[|t| - 3..] == Words("```")))
  }

  /** What the output schema and the output validator enforce before a result is persisted: an answer
      has text and looks complete, and a title that is given has at most 48 characters, of which
      normalizing leaves at least one. */
  predicate ValidTurn(t: Turn) {
    && (t.AnswerTurn? ==> t.text != [] && EndsComplete(t.text))
    && (!t.TerminateTurn? && t.title.Some? ==> 1 <= |t.title.value| <= 48)
  }

  function TitleEvents(title: Option<Text>): (bodies: seq<Body>) {
    if title.Some? && title.value != [] then [ConversationTitled(title.value)] else []
  }

  function TurnStatus(t: Turn): (result: Status) {
    if t.TerminateTurn? then Terminated else Completed
  }

  function TurnEvents(t: Turn): (bodies: seq<Body>) {
    match t
    case TerminateTurn => [ConversationTerminated]
    case ArchiveTurn(title) => [ArchiveUnavailable(ARCHIVES_COPY)] + TitleEvents(title) + [RunCompleted]
    case AnswerTurn(_, title, _) => TitleEvents(title) + [RunCompleted]
  }

  function TurnAction(t: Turn): (result: SafetyAction) {
    match t
    case TerminateTurn => TerminateAction
    case ArchiveTurn(_) => ArchiveAction
    case AnswerTurn(_, _, urgent) => if urgent then UrgentSafety else AnswerAction
  }

  function TurnAnswer(t: Turn): (result: Option<Text>) {
    match t
    case TerminateTurn => None
    case ArchiveTurn(_) => Some(ARCHIVES_COPY)
    case AnswerTurn(text, _, _) => Some(text)
  }

  datatype Step =
    | Create(r: RunId, req: Request, now: Time)
    | Recover(e: ExecId, of: ExecId)   // a restarted worker process starts the workflow of `of` over again
    | ClaimNext(e: ExecId, worker: WorkerId, r: RunId, skipped: set<RunId>, now: Time)
    | RenewLease(r: RunId, worker: WorkerId, now: Time)
    | Retry(r: RunId, worker: WorkerId, code: string, now: Time)
    | Begin(e: ExecId, now: Time)
    | ChargeRun(e: ExecId)
    | AnnounceThinking(e: ExecId, now: Time)
    | Resume(e: ExecId)
    | Emit(e: ExecId, body: Body, now: Time)
    | Conclude(e: ExecId, turn: Turn, now: Time)
    | ConcludeFailed(e: ExecId, code: string, now: Time)
    | CancelRefused(e: ExecId, now: Time)
    | CancelPolled(r: RunId, now: Time)
    | RequestCancel(r: RunId, now: Time)
    | Edit(c: ConversationId, m: MessageId, owner: Option<UserId>, session: string, now: Time)
    | Upsert(c: ConversationId, u: UserId, write: Write, now: Time)
    | Delete(c: ConversationId, u: UserId)
    | SweepRuns(now: Time)
    | SweepSecurity(now: Time)
    | Grant(u: UserId, day: int, units: nat)
    | Activate(u: UserId, active: bool)

  /** Steps an execution takes itself. */
  predicate IsExecStep(step: Step) {
    || step.Begin? || step.ChargeRun? || step.AnnounceThinking? || step.Resume? || step.Emit?
    || step.Conclude? || step.ConcludeFailed? || step.CancelRefused?
  }

  predicate At(s: System, e: ExecId, place: Place) {
    e in s.execs && s.execs[e].place == place
  }

  function Move(s: System, e: ExecId, place: Place): (after: System)
    requires e in s.execs
  {
    s.(execs := s.execs[e := s.execs[e].(place := place)])
  }

  ghost function ConcludeRun(db: Db, r: RunId, turn: Turn, now: Time): (after: Db) {
    if r !in db.runs then db
    else FinalizeRun(db, r, TurnStatus(turn), TurnEvents(turn), Some((db.runs[r].message, TurnAction(turn))),
                     TurnAnswer(turn), None, now)
  }

  ghost function FailRun(db: Db, r: RunId, code: string, now: Time): (after: Db) {
    FinalizeRun(db, r, Failed, [RunFailed(code, UNREACHABLE_COPY)], None, None, Some(code), now)
  }

  /** One committed transaction of one execution. */
  ghost function ExecStep(s: System, step: Step): (after: System)
    requires IsExecStep(step)
  {
    match step
    case Begin(e, now) =>
      if !At(s, e, AtStart) then s
      else if CanStartWork(s.db, s.execs[e].run)
      then Move(s, e, StatusSet).(db := SetWorking(s.db, s.execs[e].run, now))
      else Move(s, e, Refused)
    case ChargeRun(e) =>
      if !At(s, e, StatusSet) then s
      else Move(s, e, ChargeDone).(db := Charge(s.db, s.execs[e].run))
    case AnnounceThinking(e, now) =>
      if !At(s, e, ChargeDone) then s
      else if s.execs[e].run !in s.db.runs then Move(s, e, Over)
      else Move(s, e, Answering).(
             db := AddEvent(s.db, s.execs[e].run, StatusChanged("thinking", "Thinking", None), now),
             checkpoints := s.checkpoints + {s.execs[e].run})
    case Resume(e) =>
      if At(s, e, AtStart) && s.execs[e].run in s.checkpoints then Move(s, e, Answering) else s
    case Emit(e, body, now) =>
      if At(s, e, Answering) && ProgressBody(body) then s.(db := AddEvent(s.db, s.execs[e].run, body, now)) else s
    case Conclude(e, turn, now) =>
      if At(s, e, Answering) && ValidTurn(turn)
      then Move(s, e, Over).(db := ConcludeRun(s.db, s.execs[e].run, turn, now))
      else s
    case ConcludeFailed(e, code, now) =>
      if At(s, e, Answering) then Move(s, e, Over).(db := FailRun(s.db, s.execs[e].run, code, now)) else s
    case CancelRefused(e, now) =>
      if At(s, e, Refused) then Move(s, e, Over).(db := MarkCancelled(s.db, s.execs[e].run, now)) else s
  }

  ghost function Apply(cfg: Config, s: System, step: Step): (after: System) {
    match step
    case Create(r, req, now) =>
      var (db, outcome) := CreateRun(cfg, s.db, r, req, now);
      if r in s.used || !outcome.Created? then s else s.(db := db, used := s.used + {r})
    case ClaimNext(e, worker, r, skipped, now) =>
      if e in s.execs || !SelectedForClaim(cfg, s.db, r, skipped, now) then s
      else s.(db := Claim(cfg, s.db, r, worker, skipped, now), execs := s.execs[e := Exec(r, worker, AtStart)])
    case Recover(e, of) =>
      if e in s.execs || of !in s.execs then s
      else s.(execs := s.execs[e := s.execs[of].(place := AtStart)])
    case RenewLease(r, worker, now) => s.(db := Renew(cfg, s.db, r, worker, now))
    case Retry(r, worker, code, now) => s.(db := ReleaseForRetry(cfg, s.db, r, worker, code, now))
    case CancelPolled(r, now) =>
      if r in s.db.runs && s.db.runs[r].cancelRequested.Some? then s.(db := MarkCancelled(s.db, r, now)) else s
    case RequestCancel(r, now) => s.(db := RequestCancellation(s.db, r, now))
    case Edit(c, m, owner, session, now) => s.(db := EditMessage(s.db, c, m, owner, session, now))
    case Upsert(c, u, body, now) => s.(db := UpsertConversation(s.db, c, u, body, now))
    case Delete(c, u) => s.(db := DeleteConversation(s.db, c, u))
    case SweepRuns(now) => s.(db := PurgeRuns(s.db, now))
    case SweepSecurity(now) =>
      s.(db := PurgeSecurity(s.db, now),
         cutoff := if s.cutoff.Some? then Some(Max(s.cutoff.value, now - NINETY_DAYS)) else Some(now - NINETY_DAYS))
    case Grant(u, day, units) => s.(db := AddGrant(s.db, u, day, units))
    case Activate(u, active) => s.(db := SetAccount(s.db, u, active))
    case _ => ExecStep(s, step)
  }

  ghost function Run(cfg: Config, s: System, steps: seq<Step>): (after: System) {
    if steps == [] then s else Apply(cfg, Run(cfg, s, steps[..|steps| - 1]), steps[|steps| - 1])
  }

  /** An installation before its first run: only accounts exist. */
  function Fresh(accounts: map<UserId, Account>): (after: System) {
    System(Db(map[], map[], map[], accounts, map[], map[], map[], map[]), map[], {}, {}, None)
  }
}
