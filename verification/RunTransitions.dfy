/** How any step may change one run, and why a run changes status only finitely often. */
module RunTransitions {
  import opened Records
  import opened Transactions
  import opened Protocol
  import opened RunInvariants

  predicate SameIdentity(a: Run, b: Run) {
    && b.conversation == a.conversation && b.message == a.message && b.owner == a.owner
    && b.session == a.session && b.key == a.key && b.createdAt == a.createdAt
  }

  /** Events are appended only, and the counter moves with them. */
  predicate Grows(a: Run, b: Run) {
    a.log <= b.log && |b.log| - |a.log| == b.lastSequence - a.lastSequence
  }

  predicate SameLease(a: Run, b: Run) {
    b.leaseOwner == a.leaseOwner && b.leaseExpires == a.leaseExpires
  }

  /** Status, attempts and lease stay, and so does the time at which a finished run ended. */
  predicate Steady(a: Run, b: Run) {
    && b.status == a.status && b.attempts == a.attempts && SameLease(a, b)
    && (Terminal(a.status) ==> b.updatedAt == a.updatedAt)
  }

  predicate RenewMove(a: Run, b: Run) {
    && a.status in {Dispatched, Working} && a.leaseOwner.Some?
    && b.status == a.status && b.attempts == a.attempts && b.leaseOwner == a.leaseOwner && b.leaseExpires.Some?
  }

  predicate ClaimMove(cfg: Config, a: Run, b: Run) {
    && (a.status == Status.Accepted || (a.status in {Dispatched, Working} && a.leaseOwner.Some?))
    && a.attempts < cfg.maxAttempts
    && b.status == Dispatched && b.attempts == a.attempts + 1 && b.leaseOwner.Some?
  }

  predicate WorkMove(a: Run, b: Run) {
    !Terminal(a.status) && b.status == Working && b.attempts == a.attempts && SameLease(a, b)
  }

  predicate RequeueMove(a: Run, b: Run) {
    && !Terminal(a.status) && a.leaseOwner.Some?
    && b.status == Status.Accepted && b.leaseOwner.None? && b.attempts == a.attempts
  }

  predicate CloseMove(a: Run, b: Run) {
    !Terminal(a.status) && Terminal(b.status) && b.leaseOwner.None? && b.attempts == a.attempts
  }

  predicate Moves(cfg: Config, a: Run, b: Run) {
    || Steady(a, b) || RenewMove(a, b) || ClaimMove(cfg, a, b) || WorkMove(a, b) || RequeueMove(a, b) || CloseMove(a, b)
  }

  predicate Transition(cfg: Config, a: Run, b: Run) {
    SameIdentity(a, b) && Grows(a, b) && Moves(cfg, a, b)
  }

  /** At most the row of `r` differs, and it differs by one of the moves. */
  predicate OneRunMoves(cfg: Config, db: Db, after: Db, r: RunId) {
    || after.runs == db.runs
    || (r in db.runs && r in after.runs && after.runs == db.runs[r := after.runs[r]]
        && Transition(cfg, db.runs[r], after.runs[r]))
  }

  // ---------------------------------------------------------------- the moves of the transactions

  lemma AppendGrows(run: Run, bodies: seq<Body>, now: Time)
    ensures Grows(run, AppendEvents(run, bodies, now))
  {}

  lemma SetsOneRow(cfg: Config, db: Db, after: Db, r: RunId, row: Run)
    requires r in db.runs && after.runs == db.runs[r := row] && Transition(cfg, db.runs[r], row)
    ensures OneRunMoves(cfg, db, after, r)
  {}

  lemma FinalizeMoves(cfg: Config, db: Db, r: RunId, status: Status, bodies: seq<Body>,
                      marked: Option<(MessageId, SafetyAction)>, answer: Option<Text>, error: Option<string>,
                      now: Time)
    requires Terminal(status)
    ensures OneRunMoves(cfg, db, FinalizeRun(db, r, status, bodies, marked, answer, error, now), r)
  {
    if Unfinished(db, r) {
      var row := FinishedRow(db.runs[r], status, answer, error, now);
      AppendGrows(row, bodies, now);
      SetsOneRow(cfg, db, FinalizeRun(db, r, status, bodies, marked, answer, error, now), r,
                 AppendEvents(row, bodies, now));
    }
  }

  lemma ConcludeMoves(cfg: Config, db: Db, r: RunId, turn: Turn, now: Time)
    ensures OneRunMoves(cfg, db, ConcludeRun(db, r, turn, now), r)
  {
    if r in db.runs {
      FinalizeMoves(cfg, db, r, TurnStatus(turn), TurnEvents(turn), Some((db.runs[r].message, TurnAction(turn))),
                    TurnAnswer(turn), None, now);
    }
  }

  lemma FailMoves(cfg: Config, db: Db, r: RunId, code: string, now: Time)
    ensures OneRunMoves(cfg, db, FailRun(db, r, code, now), r)
  {
    FinalizeMoves(cfg, db, r, Failed, [RunFailed(code, UNREACHABLE_COPY)], None, None, Some(code), now);
  }

  lemma MarkMoves(cfg: Config, db: Db, r: RunId, now: Time)
    ensures OneRunMoves(cfg, db, MarkCancelled(db, r, now), r)
  {
    if Unfinished(db, r) {
      var bodies := [RunCancelled(SnapshotText(db.runs[r].log))];
      AppendGrows(CancelledRow(db.runs[r], now), bodies, now);
      SetsOneRow(cfg, db, MarkCancelled(db, r, now), r, AppendEvents(CancelledRow(db.runs[r], now), bodies, now));
    }
  }

  lemma AskMoves(cfg: Config, run: Run, now: Time)
    requires LeaseOk(cfg, run) && !Terminal(run.status)
    ensures Transition(cfg, run, AskedRow(run, now))
  {}

  lemma RequestMoves(cfg: Config, db: Db, r: RunId, now: Time)
    requires r in db.runs ==> LeaseOk(cfg, db.runs[r])
    ensures OneRunMoves(cfg, db, RequestCancellation(db, r, now), r)
  {
    if Unfinished(db, r) && db.runs[r].cancelRequested.None? {
      AskMoves(cfg, db.runs[r], now);
      SetsOneRow(cfg, db, RequestCancellation(db, r, now), r, AskedRow(db.runs[r], now));
    }
  }

  lemma ReleasedMoves(cfg: Config, run: Run, code: string, now: Time)
    requires LeaseOk(cfg, run) && run.leaseOwner.Some?
    ensures Transition(cfg, run, ReleasedRow(cfg, run, code, now))
    ensures ReleasedRow(cfg, run, code, now).attempts == run.attempts
  {}

  lemma ReleaseMoves(cfg: Config, db: Db, r: RunId, worker: WorkerId, code: string, now: Time)
    requires r in db.runs ==> LeaseOk(cfg, db.runs[r])
    ensures OneRunMoves(cfg, db, ReleaseForRetry(cfg, db, r, worker, code, now), r)
  {
    if HoldsLease(db, r, worker) {
      ReleasedMoves(cfg, db.runs[r], code, now);
      SetsOneRow(cfg, db, ReleaseForRetry(cfg, db, r, worker, code, now), r, ReleasedRow(cfg, db.runs[r], code, now));
    }
  }

  lemma ClaimMoves(cfg: Config, db: Db, r: RunId, worker: WorkerId, skipped: set<RunId>, now: Time)
    requires r in db.runs ==> LeaseOk(cfg, db.runs[r])
    ensures OneRunMoves(cfg, db, Claim(cfg, db, r, worker, skipped, now), r)
  {
    if SelectedForClaim(cfg, db, r, skipped, now) {
      SetsOneRow(cfg, db, Claim(cfg, db, r, worker, skipped, now), r, ClaimedRow(cfg, db.runs[r], worker, now));
    }
  }

  lemma RenewMoves(cfg: Config, db: Db, r: RunId, worker: WorkerId, now: Time)
    ensures OneRunMoves(cfg, db, Renew(cfg, db, r, worker, now), r)
  {}

  lemma SetWorkingMoves(cfg: Config, db: Db, r: RunId, now: Time)
    ensures OneRunMoves(cfg, db, SetWorking(db, r, now), r)
  {}

  lemma AddEventMoves(cfg: Config, db: Db, r: RunId, body: Body, now: Time)
    ensures OneRunMoves(cfg, db, AddEvent(db, r, body, now), r)
  {
    if r in db.runs { AppendGrows(db.runs[r], [body], now); }
  }

  // ---------------------------------------------------------------- the moves of the steps

  /** The run a step touches. */
  function Target(s: System, step: Step): (r: RunId) {
    match step
    case Create(r, _, _) => r
    case ClaimNext(_, _, r, _, _) => r
    case RenewLease(r, _, _) => r
    case Retry(r, _, _, _) => r
    case CancelPolled(r, _) => r
    case RequestCancel(r, _) => r
    case _ => if IsExecStep(step) && step.e in s.execs then s.execs[step.e].run else ""
  }

  lemma WorkMoves(cfg: Config, s: System, step: Step, after: System)
    requires step.Begin? || step.ChargeRun? || step.AnnounceThinking? || step.Resume? || step.Emit?
    requires after == ExecStep(s, step)
    ensures OneRunMoves(cfg, s.db, after.db, Target(s, step))
  {
    if step.e in s.execs {
      var r := s.execs[step.e].run;
      match step
      case Begin(_, now) => SetWorkingMoves(cfg, s.db, r, now);
      case AnnounceThinking(_, now) => AddEventMoves(cfg, s.db, r, StatusChanged("thinking", "Thinking", None), now);
      case Emit(_, body, now) => AddEventMoves(cfg, s.db, r, body, now);
      case _ =>
    }
  }

  lemma ConcludeStepMoves(cfg: Config, s: System, step: Step, after: System)
    requires (step.Conclude? || step.ConcludeFailed?) && after == ExecStep(s, step)
    ensures OneRunMoves(cfg, s.db, after.db, Target(s, step))
  {
    if step.e in s.execs {
      var r := s.execs[step.e].run;
      match step
      case Conclude(_, turn, now) => ConcludeMoves(cfg, s.db, r, turn, now);
      case ConcludeFailed(_, code, now) => FailMoves(cfg, s.db, r, code, now);
    }
  }

  lemma RefuseStepMoves(cfg: Config, s: System, step: Step, after: System)
    requires step.CancelRefused? && after == ExecStep(s, step)
    ensures OneRunMoves(cfg, s.db, after.db, Target(s, step))
  {
    if step.e in s.execs { MarkMoves(cfg, s.db, s.execs[step.e].run, step.now); }
  }

  lemma LeaseMoves(cfg: Config, s: System, step: Step, after: System)
    requires step.ClaimNext? || step.RenewLease? || step.Retry?
    requires after == Apply(cfg, s, step) && (step.r in s.db.runs ==> LeaseOk(cfg, s.db.runs[step.r]))
    ensures OneRunMoves(cfg, s.db, after.db, Target(s, step))
  {
    match step
    case ClaimNext(_, worker, r, skipped, now) => ClaimMoves(cfg, s.db, r, worker, skipped, now);
    case RenewLease(r, worker, now) => RenewMoves(cfg, s.db, r, worker, now);
    case Retry(r, worker, code, now) => ReleaseMoves(cfg, s.db, r, worker, code, now);
  }

  lemma CancelMoves(cfg: Config, s: System, step: Step, after: System)
    requires step.CancelPolled? || step.RequestCancel?
    requires after == Apply(cfg, s, step) && (step.r in s.db.runs ==> LeaseOk(cfg, s.db.runs[step.r]))
    ensures OneRunMoves(cfg, s.db, after.db, Target(s, step))
  {
    match step
    case CancelPolled(r, now) => MarkMoves(cfg, s.db, r, now);
    case RequestCancel(r, now) => RequestMoves(cfg, s.db, r, now);
  }

  lemma ApplyExec(cfg: Config, s: System, step: Step)
    requires IsExecStep(step)
    ensures Apply(cfg, s, step) == ExecStep(s, step)
  {}

  lemma OkAt(cfg: Config, db: Db, r: RunId)
    requires RunsOk(cfg, db)
    ensures r in db.runs ==> LeaseOk(cfg, db.runs[r])
  {
    assert r in db.runs ==> RunOk(cfg, db.runs[r]);
  }

  /** Apart from creates and sweeps, a step changes one run by one named move or none at all. */
  lemma StepMovesOneRun(cfg: Config, s: System, step: Step, after: System)
    requires RunsOk(cfg, s.db) && !step.Create? && !step.SweepRuns? && after == Apply(cfg, s, step)
    ensures OneRunMoves(cfg, s.db, after.db, Target(s, step))
  {
    OkAt(cfg, s.db, Target(s, step));
    if step.Conclude? || step.ConcludeFailed? {
      ApplyExec(cfg, s, step);
      ConcludeStepMoves(cfg, s, step, after);
    } else if step.CancelRefused? {
      ApplyExec(cfg, s, step);
      RefuseStepMoves(cfg, s, step, after);
    } else if IsExecStep(step) {
      ApplyExec(cfg, s, step);
      WorkMoves(cfg, s, step, after);
    } else if step.ClaimNext? || step.RenewLease? || step.Retry? {
      LeaseMoves(cfg, s, step, after);
    } else if step.CancelPolled? || step.RequestCancel? {
      CancelMoves(cfg, s, step, after);
    } else {
      RestKeepsRuns(cfg, s, step, after);
    }
  }

  lemma CreateStep(cfg: Config, s: System, step: Step, after: System)
    requires step.Create? && after == Apply(cfg, s, step)
    ensures || after == s
            || (step.r !in s.used && step.r !in s.db.runs && after.used == s.used + {step.r}
                && after.db.runs == s.db.runs[step.r := NewRun(cfg, step.req, step.now)])
  {
    CreateAddsOneRun(cfg, s.db, step.r, step.req, step.now);
  }

  lemma SweepStep(cfg: Config, s: System, step: Step, after: System, r: RunId)
    requires step.SweepRuns? && after == Apply(cfg, s, step) && r in s.db.runs
    ensures r in after.db.runs <==> !Expired(s.db.runs[r], step.now)
    ensures r in after.db.runs ==> after.db.runs[r] == Scrubbed(s.db.runs[r], step.now)
    ensures after.db.runs.Keys <= s.db.runs.Keys && after.used == s.used
  {}

  lemma SteadyIsTransition(cfg: Config, run: Run)
    ensures Transition(cfg, run, run)
  {}

  /** Every step but a sweep changes a run by one of the named moves or not at all. */
  lemma StepIsTransition(cfg: Config, s: System, step: Step, after: System, r: RunId)
    requires RunsOk(cfg, s.db) && r in s.db.runs && after == Apply(cfg, s, step) && !step.SweepRuns?
    ensures r in after.db.runs && Transition(cfg, s.db.runs[r], after.db.runs[r])
  {
    SteadyIsTransition(cfg, s.db.runs[r]);
    if step.Create? {
      CreateStep(cfg, s, step, after);
    } else {
      StepMovesOneRun(cfg, s, step, after);
    }
  }

  /** So does a sweep, apart from the log, which it may remove. */
  lemma StepKeepsRow(cfg: Config, s: System, step: Step, after: System, r: RunId)
    requires RunsOk(cfg, s.db) && r in s.db.runs && after == Apply(cfg, s, step) && r in after.db.runs
    ensures SameIdentity(s.db.runs[r], after.db.runs[r]) && Moves(cfg, s.db.runs[r], after.db.runs[r])
  {
    if step.SweepRuns? {
      SweepStep(cfg, s, step, after, r);
    } else {
      StepIsTransition(cfg, s, step, after, r);
    }
  }

  /** No step leaves a terminal status, and none moves the time at which the run ended. */
  lemma TerminalIsAbsorbing(cfg: Config, s: System, step: Step, after: System, r: RunId)
    requires RunsOk(cfg, s.db) && r in s.db.runs && Terminal(s.db.runs[r].status)
    requires after == Apply(cfg, s, step) && r in after.db.runs
    ensures after.db.runs[r].status == s.db.runs[r].status && after.db.runs[r].updatedAt == s.db.runs[r].updatedAt
  {
    assert RunOk(cfg, s.db.runs[r]);
    StepKeepsRow(cfg, s, step, after, r);
  }

  /** Only the retention sweep removes a run, and only a finished one. */
  lemma OnlySweepRemoves(cfg: Config, s: System, step: Step, after: System, r: RunId)
    requires RunsOk(cfg, s.db) && r in s.db.runs && after == Apply(cfg, s, step)
    ensures r in after.db.runs || (step.SweepRuns? && Terminal(s.db.runs[r].status))
  {
    if step.SweepRuns? {
      SweepStep(cfg, s, step, after, r);
    } else {
      StepIsTransition(cfg, s, step, after, r);
    }
  }

  // ---------------------------------------------------------------- identifiers in use

  /** The run invariant, and every stored run's identifier has been handed out. */
  ghost predicate Sound(cfg: Config, s: System) {
    RunsOk(cfg, s.db) && s.db.runs.Keys <= s.used
  }

  lemma OnlyCreateUses(cfg: Config, s: System, step: Step)
    requires !step.Create?
    ensures Apply(cfg, s, step).used == s.used
  {}

  lemma UsedOnlyGrows(cfg: Config, s: System, step: Step, after: System)
    requires Sound(cfg, s) && after == Apply(cfg, s, step)
    ensures s.used <= after.used && after.db.runs.Keys <= after.used
  {
    if step.Create? {
      CreateStep(cfg, s, step, after);
    } else {
      OnlyCreateUses(cfg, s, step);
      if step.SweepRuns? {
        SweepKeepsKeys(s.db, step.now);
      } else {
        StepMovesOneRun(cfg, s, step, after);
      }
    }
  }

  lemma SweepKeepsKeys(db: Db, now: Time)
    ensures PurgeRuns(db, now).runs.Keys <= db.runs.Keys
  {}

  lemma SoundStep(cfg: Config, s: System, step: Step, after: System)
    requires Sound(cfg, s) && after == Apply(cfg, s, step)
    ensures Sound(cfg, after) && s.used <= after.used
  {
    StepKeepsRuns(cfg, s, step, after);
    UsedOnlyGrows(cfg, s, step, after);
  }

  lemma {:induction false} SoundAlways(cfg: Config, accounts: map<UserId, Account>, steps: seq<Step>, s: System)
    requires s == Protocol.Run(cfg, Fresh(accounts), steps)
    ensures Sound(cfg, s)
  {
    if steps != [] {
      var before := Protocol.Run(cfg, Fresh(accounts), steps[..|steps| - 1]);
      SoundAlways(cfg, accounts, steps[..|steps| - 1], before);
      SoundStep(cfg, before, steps[|steps| - 1], s);
    }
  }

  /** A run that appears was created, under an identifier never handed out before. */
  lemma NewRunIsUnstarted(cfg: Config, s: System, step: Step, after: System, r: RunId)
    requires Sound(cfg, s) && after == Apply(cfg, s, step) && r !in s.db.runs && r in after.db.runs
    ensures r !in s.used && step.Create? && step.r == r && after.db.runs[r] == NewRun(cfg, step.req, step.now)
  {
    if step.Create? {
      CreateStep(cfg, s, step, after);
    } else if step.SweepRuns? {
      SweepKeepsKeys(s.db, step.now);
    } else {
      StepMovesOneRun(cfg, s, step, after);
    }
  }

  ghost predicate IdentitiesKept(db: Db, after: Db) {
    forall r :: r in after.runs ==> r in db.runs && SameIdentity(db.runs[r], after.runs[r])
  }

  lemma IdentityStays(cfg: Config, s: System, step: Step, after: System)
    requires Sound(cfg, s) && after == Apply(cfg, s, step) && !step.Create?
    ensures IdentitiesKept(s.db, after.db)
  {
    forall r | r in after.db.runs ensures r in s.db.runs && SameIdentity(s.db.runs[r], after.db.runs[r]) {
      if r in s.db.runs {
        StepKeepsRow(cfg, s, step, after, r);
      } else {
        NewRunIsUnstarted(cfg, s, step, after, r);
      }
    }
  }

  // ---------------------------------------------------------------- the measure

  function Rank(status: Status): (n: nat) {
    match status
    case Accepted => 3
    case Dispatched => 2
    case Working => 1
    case _ => 0
  }

  function LeaseCount(run: Run): (n: nat) {
    if run.leaseOwner.Some? then 1 else 0
  }

  /** Lexicographic order on (claims left, lease present, rank of the status). */
  predicate Below(cfg: Config, b: Run, a: Run) {
    || b.attempts > a.attempts
    || (b.attempts == a.attempts && LeaseCount(b) < LeaseCount(a))
    || (b.attempts == a.attempts && LeaseCount(b) == LeaseCount(a) && Rank(b.status) < Rank(a.status))
  }

  lemma MoveDescends(cfg: Config, a: Run, b: Run)
    requires RunOk(cfg, a) && RunOk(cfg, b) && Moves(cfg, a, b) && b.status != a.status
    ensures Below(cfg, b, a)
  {}

  /** Every step that changes a run's status moves it strictly down that order. */
  lemma StatusChangeDescends(cfg: Config, s: System, step: Step, after: System, r: RunId)
    requires RunsOk(cfg, s.db) && after == Apply(cfg, s, step) && r in s.db.runs && r in after.db.runs
    requires after.db.runs[r].status != s.db.runs[r].status
    ensures Below(cfg, after.db.runs[r], s.db.runs[r])
  {
    StepKeepsRow(cfg, s, step, after, r);
    StepKeepsRuns(cfg, s, step, after);
    assert RunOk(cfg, s.db.runs[r]) && RunOk(cfg, after.db.runs[r]);
    MoveDescends(cfg, s.db.runs[r], after.db.runs[r]);
  }

  /** A single number that bounds the status changes still to come. */
  function Potential(cfg: Config, run: Run): (n: int) {
    3 * (cfg.maxAttempts - run.attempts) + Rank(run.status) + 3 * LeaseCount(run)
  }

  lemma MoveSpendsPotential(cfg: Config, a: Run, b: Run)
    requires RunOk(cfg, a) && RunOk(cfg, b) && Moves(cfg, a, b)
    ensures 0 <= Potential(cfg, b) <= Potential(cfg, a)
    ensures b.status != a.status ==> Potential(cfg, b) < Potential(cfg, a)
  {}

  // ---------------------------------------------------------------- how often a run is claimed

  predicate Took(before: System, after: System, r: RunId, step: Step) {
    step.ClaimNext? && step.r == r && step.e !in before.execs && step.e in after.execs
  }

  lemma ClaimOfRow(cfg: Config, s: System, step: Step, after: System, r: RunId)
    requires step.ClaimNext? && after == Apply(cfg, s, step) && r in s.db.runs && r in after.db.runs
    ensures after.db.runs[r].attempts == s.db.runs[r].attempts + (if Took(s, after, r, step) then 1 else 0)
  {}

  lemma OnlyClaimsCount(cfg: Config, s: System, step: Step, after: System, r: RunId)
    requires !step.ClaimNext? && RunsOk(cfg, s.db) && after == Apply(cfg, s, step) && r in s.db.runs
             && r in after.db.runs
    ensures after.db.runs[r].attempts == s.db.runs[r].attempts
  {
    assert RunOk(cfg, s.db.runs[r]);
    if step.Create? {
      CreateStep(cfg, s, step, after);
    } else if step.SweepRuns? {
      SweepStep(cfg, s, step, after, r);
    } else if IsExecStep(step) {
      ExecKeepsAttempts(s, step, after, r);
    } else {
      RestKeepsAttempts(cfg, s, step, after, r);
    }
  }

  lemma ExecKeepsAttempts(s: System, step: Step, after: System, r: RunId)
    requires IsExecStep(step) && after == ExecStep(s, step) && r in s.db.runs && r in after.db.runs
    ensures after.db.runs[r].attempts == s.db.runs[r].attempts
  {}

  lemma RestKeepsAttempts(cfg: Config, s: System, step: Step, after: System, r: RunId)
    requires !step.ClaimNext? && !step.Create? && !step.SweepRuns? && !IsExecStep(step)
    requires after == Apply(cfg, s, step) && r in s.db.runs && r in after.db.runs
    requires LeaseOk(cfg, s.db.runs[r])
    ensures after.db.runs[r].attempts == s.db.runs[r].attempts
  {
    if step.Retry? {
      RetryKeepsAttempts(cfg, s.db, step.r, step.worker, step.code, step.now, r);
    } else if step.CancelPolled? || step.RequestCancel? {
      CancelKeepsAttempts(s.db, step.r, step.now, r);
    } else if step.RenewLease? {
      RenewKeepsAttempts(cfg, s.db, step.r, step.worker, step.now, r);
    } else {
      RestKeepsRuns(cfg, s, step, after);
    }
  }

  lemma RetryKeepsAttempts(cfg: Config, db: Db, q: RunId, worker: WorkerId, code: string, now: Time, r: RunId)
    requires r in db.runs && LeaseOk(cfg, db.runs[r])
    ensures r in ReleaseForRetry(cfg, db, q, worker, code, now).runs
    ensures ReleaseForRetry(cfg, db, q, worker, code, now).runs[r].attempts == db.runs[r].attempts
  {
    ReleaseSetsRow(cfg, db, q, worker, code, now);
    if q == r && HoldsLease(db, r, worker) { ReleasedMoves(cfg, db.runs[r], code, now); }
  }

  lemma ReleaseSetsRow(cfg: Config, db: Db, q: RunId, worker: WorkerId, code: string, now: Time)
    ensures ReleaseForRetry(cfg, db, q, worker, code, now).runs ==
            if HoldsLease(db, q, worker) then db.runs[q := ReleasedRow(cfg, db.runs[q], code, now)] else db.runs
  {}

  lemma CancelKeepsAttempts(db: Db, q: RunId, now: Time, r: RunId)
    requires r in db.runs
    ensures r in MarkCancelled(db, q, now).runs && MarkCancelled(db, q, now).runs[r].attempts == db.runs[r].attempts
    ensures r in RequestCancellation(db, q, now).runs
            && RequestCancellation(db, q, now).runs[r].attempts == db.runs[r].attempts
  {}

  lemma RenewKeepsAttempts(cfg: Config, db: Db, q: RunId, worker: WorkerId, now: Time, r: RunId)
    requires r in db.runs
    ensures r in Renew(cfg, db, q, worker, now).runs
            && Renew(cfg, db, q, worker, now).runs[r].attempts == db.runs[r].attempts
  {}

  /** A run's attempts count exactly the claims that took it. */
  lemma ClaimCountsAttempt(cfg: Config, s: System, step: Step, after: System, r: RunId)
    requires after == Apply(cfg, s, step) && RunsOk(cfg, s.db) && r in s.db.runs && r in after.db.runs
    ensures after.db.runs[r].attempts == s.db.runs[r].attempts + (if Took(s, after, r, step) then 1 else 0)
  {
    if step.ClaimNext? { ClaimOfRow(cfg, s, step, after, r); } else { OnlyClaimsCount(cfg, s, step, after, r); }
  }

  // ---------------------------------------------------------------- whole histories

  predicate ChangesStatus(before: System, after: System, r: RunId) {
    r in before.db.runs && r in after.db.runs && before.db.runs[r].status != after.db.runs[r].status
  }

  /** How often the run's stored status changed along a history. */
  ghost function StatusChanges(cfg: Config, s: System, steps: seq<Step>, r: RunId): (n: nat) {
    if steps == [] then 0
    else
      var before := Protocol.Run(cfg, s, steps[..|steps| - 1]);
      StatusChanges(cfg, s, steps[..|steps| - 1], r) +
      (if ChangesStatus(before, Protocol.Run(cfg, s, steps), r) then 1 else 0)
  }

  /** How often the run was claimed along a history. */
  ghost function Claims(cfg: Config, s: System, steps: seq<Step>, r: RunId): (n: nat) {
    if steps == [] then 0
    else
      var before := Protocol.Run(cfg, s, steps[..|steps| - 1]);
      Claims(cfg, s, steps[..|steps| - 1], r) +
      (if Took(before, Protocol.Run(cfg, s, steps), r, steps[|steps| - 1]) then 1 else 0)
  }

  /** What is known of the two counts: changes made and to come, claims made, before and after the
      run is stored. */
  predicate Accounted(cfg: Config, s: System, r: RunId, changes: nat, claims: nat) {
    if r in s.db.runs then
      changes + Potential(cfg, s.db.runs[r]) <= 3 * cfg.maxAttempts + 3 && claims == s.db.runs[r].attempts
    else
      && changes <= 3 * cfg.maxAttempts + 3 && claims <= cfg.maxAttempts
      && (r !in s.used ==> changes == claims == 0)
  }

  lemma NewRunIsAccounted(cfg: Config, req: Request, now: Time)
    ensures Potential(cfg, NewRun(cfg, req, now)) == 3 * cfg.maxAttempts + 3 && NewRun(cfg, req, now).attempts == 0
  {}

  lemma AbsentIsNotTaken(cfg: Config, s: System, step: Step, after: System, r: RunId)
    requires after == Apply(cfg, s, step) && r !in s.db.runs
    ensures !Took(s, after, r, step)
  {}

  lemma StepIsAccounted(cfg: Config, s: System, step: Step, after: System, r: RunId, changes: nat, claims: nat)
    requires Sound(cfg, s) && after == Apply(cfg, s, step) && Sound(cfg, after) && s.used <= after.used
    requires Accounted(cfg, s, r, changes, claims)
    ensures Accounted(cfg, after, r, changes + (if ChangesStatus(s, after, r) then 1 else 0),
                      claims + (if Took(s, after, r, step) then 1 else 0))
  {
    if r in s.db.runs {
      assert RunOk(cfg, s.db.runs[r]);
      if r in after.db.runs {
        assert RunOk(cfg, after.db.runs[r]);
        StepKeepsRow(cfg, s, step, after, r);
        MoveSpendsPotential(cfg, s.db.runs[r], after.db.runs[r]);
        ClaimCountsAttempt(cfg, s, step, after, r);
      } else {
        OnlySweepRemoves(cfg, s, step, after, r);
      }
    } else {
      AbsentIsNotTaken(cfg, s, step, after, r);
      if r in after.db.runs {
        NewRunIsUnstarted(cfg, s, step, after, r);
        NewRunIsAccounted(cfg, step.req, step.now);
      }
    }
  }

  lemma {:induction false} AccountedAlways(cfg: Config, accounts: map<UserId, Account>, steps: seq<Step>, s: System,
                                           r: RunId)
    requires s == Protocol.Run(cfg, Fresh(accounts), steps)
    ensures Accounted(cfg, s, r, StatusChanges(cfg, Fresh(accounts), steps, r), Claims(cfg, Fresh(accounts), steps, r))
  {
    if steps != [] {
      var most := steps[..|steps| - 1];
      var before := Protocol.Run(cfg, Fresh(accounts), most);
      AccountedAlways(cfg, accounts, most, before, r);
      SoundAlways(cfg, accounts, most, before);
      SoundStep(cfg, before, steps[|steps| - 1], s);
      StepIsAccounted(cfg, before, steps[|steps| - 1], s, r,
                      StatusChanges(cfg, Fresh(accounts), most, r), Claims(cfg, Fresh(accounts), most, r));
    }
  }

  /** Over any history a run changes status at most 3 * maxAttempts + 3 times and is claimed at most
      maxAttempts times. */
  lemma RunsSettle(cfg: Config, accounts: map<UserId, Account>, steps: seq<Step>, r: RunId)
    ensures StatusChanges(cfg, Fresh(accounts), steps, r) <= 3 * cfg.maxAttempts + 3
    ensures Claims(cfg, Fresh(accounts), steps, r) <= cfg.maxAttempts
  {
    var s := Protocol.Run(cfg, Fresh(accounts), steps);
    AccountedAlways(cfg, accounts, steps, s, r);
    SoundAlways(cfg, accounts, steps, s);
    if r in s.db.runs {
      assert RunOk(cfg, s.db.runs[r]);
      MoveSpendsPotential(cfg, s.db.runs[r], s.db.runs[r]);
    }
  }

  lemma {:induction false} Pow2Grows(n: nat)
    ensures Pow2(n) >= 1
  {
    if n > 0 { Pow2Grows(n - 1); }
  }

  /** The delay before a released run may be claimed again starts at one second, doubles with each
      attempt and stops at thirty. */
  lemma RetryDelayBounds(attempts: nat)
    ensures 1 <= RetryDelay(attempts) <= 30
    ensures attempts <= 1 ==> RetryDelay(attempts) == 1
    ensures attempts >= 1 ==> RetryDelay(attempts + 1) == Min(30, 2 * RetryDelay(attempts))
  {
    Pow2Grows(Max(0, attempts - 1));
  }
}
