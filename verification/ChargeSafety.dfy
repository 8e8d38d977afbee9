/** A run that ends completed or terminated has been charged, whatever stale executions,
    retries, takeovers and cancellations did in between.

    `charge_allowance` looks only at the ledger row and never at the run, so the argument is a
    joint invariant over the tables, the executions and the recorded checkpoints. */
module ChargeSafety {
  import opened Records
  import opened Transactions
  import opened Protocol
  import opened RunInvariants
  import opened RunTransitions

  /** Some execution of the run has got past the charging transaction. */
  ghost predicate PastCharge(s: System, r: RunId) {
    r in s.checkpoints || exists e :: e in s.execs && s.execs[e].run == r && s.execs[e].place in {ChargeDone, Answering}
  }

  ghost predicate KnownIds(s: System) {
    && s.db.runs.Keys <= s.used && s.db.ledger.Keys <= s.used && s.checkpoints <= s.used
    && (forall e :: e in s.execs ==> s.execs[e].run in s.used)
  }

  /** A released unit belongs to a run that has already failed or been cancelled. */
  ghost predicate ReleasedMeansStopped(db: Db) {
    forall r :: r in db.ledger && r in db.runs && db.ledger[r].status == Released ==>
        db.runs[r].status in {Failed, Cancelled}
  }

  ghost predicate NoLateReservation(s: System) {
    forall r :: r in s.db.ledger && PastCharge(s, r) ==> s.db.ledger[r].status != Reserved
  }

  ghost predicate AnsweredMeansCharged(db: Db) {
    forall r :: r in db.ledger && r in db.runs && db.runs[r].status in {Completed, Terminated} ==>
        db.ledger[r].status == Charged
  }

  /** A user's run has its ledger row unless a security purge has passed its creation time. */
  ghost predicate LedgerPresent(s: System) {
    forall r :: r in s.db.runs ==>
      var run := s.db.runs[r];
      && (r in s.db.ledger ==> run.owner == Some(s.db.ledger[r].user) && s.db.ledger[r].reservedAt == run.createdAt)
      && (run.owner.Some? && r !in s.db.ledger ==> s.cutoff.Some? && run.createdAt < s.cutoff.value)
  }

  ghost predicate ChargeOk(s: System) {
    && KnownIds(s) && ReleasedMeansStopped(s.db) && NoLateReservation(s) && AnsweredMeansCharged(s.db)
    && LedgerPresent(s)
  }

  // ---------------------------------------------------------------- what a step does to the ledger

  predicate ChargesAt(s: System, step: Step) {
    step.ChargeRun? && At(s, step.e, StatusSet)
  }

  /** Apart from creates and security purges: nothing, one charge, or one release of a stopped run. */
  ghost predicate LedgerMove(s: System, step: Step, after: System) {
    || after.db.ledger == s.db.ledger
    || (ChargesAt(s, step) && after.db.ledger == SetLedger(s.db.ledger, s.execs[step.e].run, Charged))
    || ((step.Retry? || step.RequestCancel?) && step.r in after.db.runs
        && after.db.runs[step.r].status in {Failed, Cancelled}
        && after.db.ledger == SetLedger(s.db.ledger, step.r, Released))
  }

  lemma ReleaseLedger(cfg: Config, db: Db, r: RunId, worker: WorkerId, code: string, now: Time)
    ensures var after := ReleaseForRetry(cfg, db, r, worker, code, now);
            || after.ledger == db.ledger
            || (r in after.runs && after.runs[r].status == Failed && after.ledger == SetLedger(db.ledger, r, Released))
  {}

  lemma RequestLedger(db: Db, r: RunId, now: Time)
    ensures var after := RequestCancellation(db, r, now);
            || after.ledger == db.ledger
            || (r in after.runs && after.runs[r].status == Cancelled
                && after.ledger == SetLedger(db.ledger, r, Released))
  {}

  lemma WorkLedger(s: System, step: Step, after: System)
    requires IsExecStep(step) && !step.Conclude? && !step.ConcludeFailed? && !step.CancelRefused?
             && after == ExecStep(s, step)
    ensures LedgerMove(s, step, after)
  {}

  lemma EndLedger(s: System, step: Step, after: System)
    requires (step.Conclude? || step.ConcludeFailed? || step.CancelRefused?) && after == ExecStep(s, step)
    ensures after.db.ledger == s.db.ledger
  {}

  lemma DispatchKeepsLedger(cfg: Config, s: System, step: Step, after: System)
    requires step.ClaimNext? || step.RenewLease? || step.CancelPolled? || step.SweepRuns? || step.Grant?
             || step.Activate? || step.Recover?
    requires after == Apply(cfg, s, step)
    ensures after.db.ledger == s.db.ledger
  {}

  lemma ExecLedger(cfg: Config, s: System, step: Step, after: System)
    requires IsExecStep(step) && after == Apply(cfg, s, step)
    ensures LedgerMove(s, step, after)
  {
    ApplyExec(cfg, s, step);
    if step.Conclude? || step.ConcludeFailed? || step.CancelRefused? {
      EndLedger(s, step, after);
    } else {
      WorkLedger(s, step, after);
    }
  }

  lemma StepLedger(cfg: Config, s: System, step: Step, after: System)
    requires !step.Create? && !step.SweepSecurity? && after == Apply(cfg, s, step)
    ensures LedgerMove(s, step, after)
  {
    if step.Retry? {
      ReleaseLedger(cfg, s.db, step.r, step.worker, step.code, step.now);
    } else if step.RequestCancel? {
      RequestLedger(s.db, step.r, step.now);
    } else if IsExecStep(step) {
      ExecLedger(cfg, s, step, after);
    } else if step.Edit? || step.Upsert? || step.Delete? {
      WritingStep(cfg, s, step, after);
    } else {
      DispatchKeepsLedger(cfg, s, step, after);
    }
  }

  // ---------------------------------------------------------------- what a step does to the executions

  /** Executions past the charge come from the charge itself or from a recorded checkpoint. */
  lemma StepPlaces(cfg: Config, s: System, step: Step, after: System, r: RunId)
    requires after == Apply(cfg, s, step) && PastCharge(after, r)
    ensures PastCharge(s, r) || (ChargesAt(s, step) && s.execs[step.e].run == r)
  {
    if step.ClaimNext? || step.Recover? {
      FreshPlaces(cfg, s, step, after, r);
    } else if IsExecStep(step) {
      ApplyExec(cfg, s, step);
      ExecPlaces(s, step, after, r);
    } else {
      OtherPlaces(cfg, s, step, after);
    }
  }

  lemma OtherPlaces(cfg: Config, s: System, step: Step, after: System)
    requires !step.ClaimNext? && !step.Recover? && !IsExecStep(step) && after == Apply(cfg, s, step)
    ensures after.execs == s.execs && after.checkpoints == s.checkpoints
  {}

  lemma FreshPlaces(cfg: Config, s: System, step: Step, after: System, r: RunId)
    requires (step.ClaimNext? || step.Recover?) && after == Apply(cfg, s, step) && PastCharge(after, r)
    ensures PastCharge(s, r)
  {
    if r !in after.checkpoints {
      var e :| e in after.execs && after.execs[e].run == r && after.execs[e].place in {ChargeDone, Answering};
      assert e in s.execs && s.execs[e] == after.execs[e];
    }
  }

  lemma ExecPlaces(s: System, step: Step, after: System, r: RunId)
    requires IsExecStep(step) && after == ExecStep(s, step) && PastCharge(after, r)
    ensures PastCharge(s, r) || (ChargesAt(s, step) && s.execs[step.e].run == r)
  {
    ExecPlacesOf(s, step, after);
    if r in after.checkpoints {
      if r !in s.checkpoints { assert s.execs[step.e].run == r && s.execs[step.e].place == ChargeDone; }
    } else {
      var e :| e in after.execs && after.execs[e].run == r && after.execs[e].place in {ChargeDone, Answering};
      assert e in s.execs && s.execs[e].run == r;
    }
  }

  /** A step moves its own execution alone; past the charge it gets there by charging, by announcing or
      from a checkpoint. */
  lemma ExecPlacesOf(s: System, step: Step, after: System)
    requires IsExecStep(step) && after == ExecStep(s, step)
    ensures after.execs.Keys == s.execs.Keys
    ensures forall e :: e in s.execs ==>
            after.execs[e].run == s.execs[e].run && (e != step.e ==> after.execs[e] == s.execs[e])
    ensures step.e in s.execs && after.execs[step.e].place in {ChargeDone, Answering} ==>
              || s.execs[step.e].place in {ChargeDone, Answering} || s.execs[step.e].run in s.checkpoints
              || ChargesAt(s, step)
    ensures after.checkpoints == s.checkpoints || (step.e in s.execs && s.execs[step.e].place == ChargeDone
                                                   && after.checkpoints == s.checkpoints + {s.execs[step.e].run})
  {
    if step.Conclude? || step.ConcludeFailed? || step.CancelRefused? || step.Emit? {
      EndPlacesOf(s, step, after);
    } else if step.AnnounceThinking? {
      AnnouncePlacesOf(s, step, after);
    } else {
      StartPlacesOf(s, step, after);
    }
  }

  lemma AnnouncePlacesOf(s: System, step: Step, after: System)
    requires step.AnnounceThinking? && after == ExecStep(s, step)
    ensures || (after.checkpoints == s.checkpoints && after.execs == s.execs)
            || (after.checkpoints == s.checkpoints && step.e in s.execs
                && after.execs == s.execs[step.e := s.execs[step.e].(place := Over)])
            || (At(s, step.e, ChargeDone) && after.checkpoints == s.checkpoints + {s.execs[step.e].run}
                && after.execs == s.execs[step.e := s.execs[step.e].(place := Answering)])
  {}

  lemma EndPlacesOf(s: System, step: Step, after: System)
    requires (step.Conclude? || step.ConcludeFailed? || step.CancelRefused? || step.Emit?) && after == ExecStep(s, step)
    ensures after.checkpoints == s.checkpoints
    ensures after.execs == s.execs
            || (step.e in s.execs && after.execs == s.execs[step.e := s.execs[step.e].(place := Over)])
  {}

  lemma StartPlacesOf(s: System, step: Step, after: System)
    requires (step.Begin? || step.ChargeRun? || step.Resume?) && after == ExecStep(s, step)
    ensures after.execs.Keys == s.execs.Keys
    ensures forall e :: e in s.execs ==>
            after.execs[e].run == s.execs[e].run && (e != step.e ==> after.execs[e] == s.execs[e])
    ensures step.e in s.execs && after.execs[step.e].place in {ChargeDone, Answering} ==>
              || s.execs[step.e].place in {ChargeDone, Answering} || s.execs[step.e].run in s.checkpoints
              || ChargesAt(s, step)
    ensures after.checkpoints == s.checkpoints || (step.e in s.execs && s.execs[step.e].place == ChargeDone
                                                   && after.checkpoints == s.checkpoints + {s.execs[step.e].run})
  {}

  predicate Answered(db: Db, r: RunId) {
    r in db.runs && db.runs[r].status in {Completed, Terminated}
  }

  lemma OnlyConcludeAnswers(cfg: Config, s: System, step: Step, after: System, r: RunId)
    requires Sound(cfg, s) && after == Apply(cfg, s, step) && Answered(after.db, r)
    ensures r in s.db.runs
    ensures || s.db.runs[r].status in {Completed, Terminated}
            || (step.Conclude? && At(s, step.e, Answering) && s.execs[step.e].run == r
                && !Terminal(s.db.runs[r].status))
  {
    if step.Create? {
      CreateStep(cfg, s, step, after);
    } else if step.Conclude? {
      ApplyExec(cfg, s, step);
      ConcludeOneRun(s, step, after, r);
    } else if IsExecStep(step) {
      ApplyExec(cfg, s, step);
      WorkAnswersNone(s, step, after, r);
    } else if step.SweepRuns? {
      SweepKeepsKeys(s.db, step.now);
      SweepStep(cfg, s, step, after, r);
    } else if step.RequestCancel? || step.CancelPolled? || step.Retry? || step.ClaimNext? || step.RenewLease? {
      DispatchAnswersNone(cfg, s, step, after, r);
    } else {
      RestKeepsRuns(cfg, s, step, after);
    }
  }

  lemma ConcludeOneRun(s: System, step: Step, after: System, r: RunId)
    requires step.Conclude? && after == ExecStep(s, step) && r in after.db.runs
    ensures r in s.db.runs
    ensures || after.db.runs[r].status == s.db.runs[r].status
            || (At(s, step.e, Answering) && s.execs[step.e].run == r && !Terminal(s.db.runs[r].status))
  {}

  lemma WorkAnswersNone(s: System, step: Step, after: System, r: RunId)
    requires IsExecStep(step) && !step.Conclude? && after == ExecStep(s, step) && Answered(after.db, r)
    ensures Answered(s.db, r)
  {}

  lemma ReleaseAnswersNone(cfg: Config, db: Db, q: RunId, worker: WorkerId, code: string, now: Time, after: Db,
                           r: RunId)
    requires after == ReleaseForRetry(cfg, db, q, worker, code, now) && Answered(after, r)
    ensures Answered(db, r)
  {}

  lemma CancelAnswersNone(db: Db, q: RunId, now: Time, after: Db, r: RunId)
    requires (after == RequestCancellation(db, q, now) || after == MarkCancelled(db, q, now)) && Answered(after, r)
    ensures Answered(db, r)
  {}

  lemma DispatchAnswersNone(cfg: Config, s: System, step: Step, after: System, r: RunId)
    requires step.RequestCancel? || step.CancelPolled? || step.Retry? || step.ClaimNext? || step.RenewLease?
    requires after == Apply(cfg, s, step) && Answered(after.db, r)
    ensures Answered(s.db, r)
  {
    if step.Retry? {
      ReleaseAnswersNone(cfg, s.db, step.r, step.worker, step.code, step.now, after.db, r);
    } else if step.RequestCancel? || step.CancelPolled? {
      if after != s { CancelAnswersNone(s.db, step.r, step.now, after.db, r); }
    }
  }

  // ---------------------------------------------------------------- preservation

  function Reservation(req: Request, now: Time): (result: LedgerEntry)
    requires req.owner.Some?
  {
    LedgerEntry(req.owner.value, req.device, req.ip, Day(now), Reserved, now)
  }

  lemma InsertedLedger(cfg: Config, db: Db, entered: Db, after: Db, r: RunId, u: UserId, req: Request, ordinal: nat,
                       now: Time)
    requires req.owner == Some(u)
             && entered == db.(conversations := entered.conversations, messages := entered.messages)
    requires after == InsertRun(cfg, Reserve(entered, u, r, req.device, req.ip, now), r, req, ordinal, now)
    ensures after.ledger == db.ledger[r := Reservation(req, now)]
    ensures after.counters == Increment(db.counters, KeysOf(Reservation(req, now)))
    ensures after.accounts == db.accounts && after.grants == db.grants
  {}

  lemma CreateForUserLedger(cfg: Config, db: Db, r: RunId, u: UserId, req: Request, ordinal: nat, now: Time)
    requires req.owner == Some(u)
    ensures var (after, outcome) := CreateForUser(cfg, db, r, u, req, ordinal, now);
            outcome.Created? ==>
              && Assess(cfg, db, u, req.device, req.ip, now) == Admit
              && r !in db.ledger && after.ledger == db.ledger[r := Reservation(req, now)]
              && after.counters == Increment(db.counters, KeysOf(Reservation(req, now)))
              && after.accounts == db.accounts && after.grants == db.grants
  {
    var (after, outcome) := CreateForUser(cfg, db, r, u, req, ordinal, now);
    if outcome.Created? {
      var e := EnterConversation(db.conversations, db.messages, u, req, now);
      InsertedLedger(cfg, db, db.(conversations := e.conversations, messages := e.messages), after, r, u, req, ordinal,
                     now);
    }
  }

  lemma CreateNewLedger(cfg: Config, db: Db, r: RunId, req: Request, now: Time)
    ensures var (after, outcome) := CreateNew(cfg, db, r, req, now);
            outcome.Created? ==>
              if req.owner.Some? then
                && Assess(cfg, db, req.owner.value, req.device, req.ip, now) == Admit
                && r !in db.ledger && after.ledger == db.ledger[r := Reservation(req, now)]
                && after.counters == Increment(db.counters, KeysOf(Reservation(req, now)))
                && after.accounts == db.accounts && after.grants == db.grants
              else after.ledger == db.ledger && after.counters == db.counters
                   && after.accounts == db.accounts && after.grants == db.grants
  {
    if req.owner.Some? { CreateForUserLedger(cfg, db, r, req.owner.value, req, NextControl(db, req), now); }
  }

  /** A create that succeeds was admitted by the quota and reserved one unit. */
  lemma CreateLedger(cfg: Config, s: System, step: Step, after: System)
    requires step.Create? && after == Apply(cfg, s, step)
    ensures || after == s
            || (&& after.execs == s.execs && after.checkpoints == s.checkpoints && after.cutoff == s.cutoff
                && after.db.accounts == s.db.accounts && after.db.grants == s.db.grants
                && if step.req.owner.Some? then
                     && Assess(cfg, s.db, step.req.owner.value, step.req.device, step.req.ip, step.now) == Admit
                     && step.r !in s.db.ledger
                     && after.db.ledger == s.db.ledger[step.r := Reservation(step.req, step.now)]
                     && after.db.counters == Increment(s.db.counters, KeysOf(Reservation(step.req, step.now)))
                   else after.db.ledger == s.db.ledger && after.db.counters == s.db.counters)
  {
    CreateNewLedger(cfg, s.db, step.r, step.req, step.now);
  }

  /** What a successful create means to this invariant: a new run, a reserved row for a user. */
  predicate Reserves(cfg: Config, s: System, step: Step, after: System) {
    && step.Create? && step.r !in s.used && step.r !in s.db.runs && after.used == s.used + {step.r}
    && after.db.runs == s.db.runs[step.r := NewRun(cfg, step.req, step.now)]
    && after.execs == s.execs && after.checkpoints == s.checkpoints && after.cutoff == s.cutoff
    && after.db.ledger ==
        if step.req.owner.Some? then s.db.ledger[step.r := Reservation(step.req, step.now)] else s.db.ledger
  }

  lemma CreateReserves(cfg: Config, s: System, step: Step, after: System)
    requires step.Create? && after == Apply(cfg, s, step) && after != s
    ensures Reserves(cfg, s, step, after)
  {
    CreateStep(cfg, s, step, after);
    CreateLedger(cfg, s, step, after);
  }

  lemma ReservingKeepsOk(cfg: Config, s: System, step: Step, after: System)
    requires ChargeOk(s) && Reserves(cfg, s, step, after)
    ensures ChargeOk(after)
  {
    assert NewRun(cfg, step.req, step.now).status == Status.Accepted;
    forall r | r in after.db.ledger && PastCharge(after, r) ensures after.db.ledger[r].status != Reserved {
      assert PastCharge(s, r);
      assert r in s.used;
    }
  }

  lemma PurgeLeaves(cfg: Config, s: System, step: Step, after: System)
    requires step.SweepSecurity? && after == Apply(cfg, s, step)
    ensures after.db.runs == s.db.runs && after.used == s.used && after.execs == s.execs
            && after.checkpoints == s.checkpoints
    ensures forall r :: r in after.db.ledger ==> r in s.db.ledger && after.db.ledger[r] == s.db.ledger[r]
    ensures after.cutoff.Some? && (s.cutoff.Some? ==> s.cutoff.value <= after.cutoff.value)
    ensures forall r :: r in s.db.ledger && r !in after.db.ledger ==> s.db.ledger[r].reservedAt < after.cutoff.value
  {}

  lemma PurgeKeepsOk(cfg: Config, s: System, step: Step, after: System)
    requires ChargeOk(s) && step.SweepSecurity? && after == Apply(cfg, s, step)
    ensures ChargeOk(after)
  {
    PurgeLeaves(cfg, s, step, after);
  }

  lemma IdsKept(cfg: Config, s: System, step: Step, after: System)
    requires Sound(cfg, s) && KnownIds(s) && !step.Create? && !step.SweepSecurity? && after == Apply(cfg, s, step)
    ensures KnownIds(after)
  {
    UsedOnlyGrows(cfg, s, step, after);
    StepLedger(cfg, s, step, after);
    OnlyCreateUses(cfg, s, step);
    ExecIdsKept(cfg, s, step, after);
    MoveKeepsUnits(s, step, after);
  }

  lemma ExecIdsKept(cfg: Config, s: System, step: Step, after: System)
    requires KnownIds(s) && !step.Create? && after == Apply(cfg, s, step)
    ensures after.checkpoints <= s.used
    ensures forall e :: e in after.execs ==> after.execs[e].run in s.used
  {
    if step.ClaimNext? {
    } else if step.Recover? {
      RecoverKeepsDb(cfg, s, step, after);
    } else if IsExecStep(step) {
      ApplyExec(cfg, s, step);
      ExecPlacesOf(s, step, after);
    } else {
      OtherPlaces(cfg, s, step, after);
    }
  }

  lemma ReleasedKept(cfg: Config, s: System, step: Step, after: System)
    requires Sound(cfg, s) && ReleasedMeansStopped(s.db) && !step.Create? && !step.SweepSecurity?
             && after == Apply(cfg, s, step)
    ensures ReleasedMeansStopped(after.db)
  {
    StepLedger(cfg, s, step, after);
    forall r | r in after.db.ledger && r in after.db.runs && after.db.ledger[r].status == Released
      ensures after.db.runs[r].status in {Failed, Cancelled}
    {
      if r !in s.db.runs {
        NewRunIsUnstarted(cfg, s, step, after, r);
      } else if Terminal(s.db.runs[r].status) {
        TerminalIsAbsorbing(cfg, s, step, after, r);
      }
    }
  }

  lemma ReservationsKept(cfg: Config, s: System, step: Step, after: System)
    requires NoLateReservation(s) && !step.Create? && !step.SweepSecurity? && after == Apply(cfg, s, step)
    ensures NoLateReservation(after)
  {
    StepLedger(cfg, s, step, after);
    forall r | r in after.db.ledger && PastCharge(after, r) ensures after.db.ledger[r].status != Reserved {
      StepPlaces(cfg, s, step, after, r);
    }
  }

  lemma AnswersKept(cfg: Config, s: System, step: Step, after: System)
    requires Sound(cfg, s) && ReleasedMeansStopped(s.db) && NoLateReservation(s) && AnsweredMeansCharged(s.db)
    requires !step.Create? && !step.SweepSecurity? && after == Apply(cfg, s, step)
    ensures AnsweredMeansCharged(after.db)
  {
    StepLedger(cfg, s, step, after);
    forall r | r in after.db.ledger && r in after.db.runs && after.db.runs[r].status in {Completed, Terminated}
      ensures after.db.ledger[r].status == Charged
    {
      OnlyConcludeAnswers(cfg, s, step, after, r);
      AnswerIsCharged(s, step, after, r);
    }
  }

  lemma AnswerIsCharged(s: System, step: Step, after: System, r: RunId)
    requires ReleasedMeansStopped(s.db) && NoLateReservation(s) && AnsweredMeansCharged(s.db)
             && LedgerMove(s, step, after)
    requires r in after.db.ledger && r in s.db.runs && Answered(after.db, r)
    requires || s.db.runs[r].status in {Completed, Terminated}
             || (step.Conclude? && At(s, step.e, Answering) && s.execs[step.e].run == r
                 && !Terminal(s.db.runs[r].status))
    ensures after.db.ledger[r].status == Charged
  {
    if !Terminal(s.db.runs[r].status) { assert PastCharge(s, r); }
  }

  lemma OnlySecuritySweepMovesCutoff(cfg: Config, s: System, step: Step, after: System)
    requires !step.SweepSecurity? && after == Apply(cfg, s, step)
    ensures after.cutoff == s.cutoff
  {}

  /** The same units, whatever has become of them. */
  predicate SameUnits(a: map<RunId, LedgerEntry>, b: map<RunId, LedgerEntry>) {
    && b.Keys == a.Keys
    && (forall r :: r in a ==> b[r].user == a[r].user && b[r].reservedAt == a[r].reservedAt)
  }

  lemma SettingKeepsUnits(ledger: map<RunId, LedgerEntry>, r: RunId, status: LedgerStatus)
    ensures SameUnits(ledger, SetLedger(ledger, r, status))
  {}

  lemma MoveKeepsUnits(s: System, step: Step, after: System)
    requires LedgerMove(s, step, after)
    ensures SameUnits(s.db.ledger, after.db.ledger)
  {
    if ChargesAt(s, step) { SettingKeepsUnits(s.db.ledger, s.execs[step.e].run, Charged); }
    if step.Retry? || step.RequestCancel? { SettingKeepsUnits(s.db.ledger, step.r, Released); }
  }

  lemma UnitsKeepPresence(s: System, after: System)
    requires LedgerPresent(s) && after.cutoff == s.cutoff && IdentitiesKept(s.db, after.db)
    requires SameUnits(s.db.ledger, after.db.ledger)
    ensures LedgerPresent(after)
  {}

  lemma PresenceKept(cfg: Config, s: System, step: Step, after: System)
    requires Sound(cfg, s) && LedgerPresent(s) && !step.Create? && !step.SweepSecurity? && after == Apply(cfg, s, step)
    ensures LedgerPresent(after)
  {
    StepLedger(cfg, s, step, after);
    OnlySecuritySweepMovesCutoff(cfg, s, step, after);
    IdentityStays(cfg, s, step, after);
    MoveKeepsUnits(s, step, after);
    UnitsKeepPresence(s, after);
  }

  lemma StepKeepsChargeOk(cfg: Config, s: System, step: Step, after: System)
    requires Sound(cfg, s) && ChargeOk(s) && after == Apply(cfg, s, step)
    ensures ChargeOk(after)
  {
    if step.Create? {
      if after != s {
        CreateReserves(cfg, s, step, after);
        ReservingKeepsOk(cfg, s, step, after);
      }
    } else if step.SweepSecurity? {
      PurgeKeepsOk(cfg, s, step, after);
    } else {
      IdsKept(cfg, s, step, after);
      ReleasedKept(cfg, s, step, after);
      ReservationsKept(cfg, s, step, after);
      AnswersKept(cfg, s, step, after);
      PresenceKept(cfg, s, step, after);
    }
  }

  lemma {:induction false} ChargeOkAlways(cfg: Config, accounts: map<UserId, Account>, steps: seq<Step>, s: System)
    requires s == Protocol.Run(cfg, Fresh(accounts), steps)
    ensures ChargeOk(s)
  {
    if steps != [] {
      var before := Protocol.Run(cfg, Fresh(accounts), steps[..|steps| - 1]);
      SoundAlways(cfg, accounts, steps[..|steps| - 1], before);
      ChargeOkAlways(cfg, accounts, steps[..|steps| - 1], before);
      StepKeepsChargeOk(cfg, before, steps[|steps| - 1], s);
    }
  }

  /** In every reachable state a user's answered or terminated run has a ledger row that is charged;
      the row is missing only when a security purge has deleted rows as old as the run. */
  lemma AnsweredRunsAreCharged(cfg: Config, accounts: map<UserId, Account>, steps: seq<Step>, s: System, r: RunId)
    requires s == Protocol.Run(cfg, Fresh(accounts), steps)
    requires r in s.db.runs && s.db.runs[r].owner.Some? && s.db.runs[r].status in {Completed, Terminated}
    ensures if r in s.db.ledger then s.db.ledger[r].status == Charged
            else s.cutoff.Some? && s.db.runs[r].createdAt < s.cutoff.value
  {
    ChargeOkAlways(cfg, accounts, steps, s);
  }

  /** In every reachable state, a worker about to ask the provider works on a run whose unit has been
      charged or released, never on one that is still only reserved. */
  lemma ChargedBeforeAnswering(cfg: Config, accounts: map<UserId, Account>, steps: seq<Step>, s: System, e: ExecId)
    requires s == Protocol.Run(cfg, Fresh(accounts), steps) && At(s, e, Answering) && s.execs[e].run in s.db.ledger
    ensures s.db.ledger[s.execs[e].run].status != Reserved
    ensures s.execs[e].run in s.db.runs && !Terminal(s.db.runs[s.execs[e].run].status) ==>
              s.db.ledger[s.execs[e].run].status == Charged
  {
    ChargeOkAlways(cfg, accounts, steps, s);
    assert PastCharge(s, s.execs[e].run);
  }

  /** A charge is final: no later step releases it. */
  lemma ChargeIsFinal(cfg: Config, s: System, step: Step, after: System, r: RunId)
    requires r in s.db.ledger && s.db.ledger[r].status == Charged && after == Apply(cfg, s, step)
    ensures r in after.db.ledger ==> after.db.ledger[r] == s.db.ledger[r]
    ensures r !in after.db.ledger ==> step.SweepSecurity?
  {
    if step.Create? {
      CreateLedger(cfg, s, step, after);
    } else if step.SweepSecurity? {
      PurgeLeaves(cfg, s, step, after);
    } else {
      StepLedger(cfg, s, step, after);
    }
  }

  lemma AskingReleases(db: Db, r: RunId, now: Time, asked: Db)
    requires asked == RequestCancellation(db, r, now)
    requires Unfinished(db, r) && db.runs[r].cancelRequested.None? && r in db.ledger && db.ledger[r].status == Reserved
    ensures r in asked.runs
            && asked.runs[r].status == (if db.runs[r].status == Status.Accepted then Cancelled else db.runs[r].status)
    ensures r in asked.ledger
            && asked.ledger[r].status == (if db.runs[r].status == Status.Accepted then Released else Reserved)
    ensures db.runs[r].status != Status.Accepted ==> asked.counters == db.counters
  {}

  lemma MarkingReleasesNothing(db: Db, r: RunId, now: Time)
    ensures MarkCancelled(db, r, now).ledger == db.ledger && MarkCancelled(db, r, now).counters == db.counters
    ensures r in db.runs ==> r in MarkCancelled(db, r, now).runs
    ensures r in db.runs && (Unfinished(db, r) || db.runs[r].status == Cancelled) ==>
            MarkCancelled(db, r, now).runs[r].status == Cancelled
  {}

  /** A cancellation gives a reserved unit back exactly when the run had not been dispatched: asking
      releases an accepted run's unit, and the worker's own cancellation releases none. */
  lemma CancelReleasesOnlyAccepted(db: Db, r: RunId, now: Time, later: Time, asked: Db, cancelled: Db)
    requires asked == RequestCancellation(db, r, now) && cancelled == MarkCancelled(asked, r, later)
    requires Unfinished(db, r) && db.runs[r].cancelRequested.None? && r in db.ledger && db.ledger[r].status == Reserved
    ensures r in cancelled.runs && cancelled.runs[r].status == Cancelled
    ensures r in cancelled.ledger && (cancelled.ledger[r].status == Released <==> db.runs[r].status == Status.Accepted)
    ensures db.runs[r].status != Status.Accepted ==> cancelled.counters == db.counters
  {
    AskingReleases(db, r, now, asked);
    MarkingReleasesNothing(asked, r, later);
  }

  /** The run is over or gone, and its unit, if the row is still there, has not been given back. */
  predicate Stranded(s: System, r: RunId) {
    && r in s.used && (r in s.db.runs ==> Terminal(s.db.runs[r].status))
    && (r in s.db.ledger ==> s.db.ledger[r].status != Released)
  }

  lemma NoReleaseOfEnded(cfg: Config, s: System, step: Step, after: System, r: RunId)
    requires Stranded(s, r) && (r in s.db.runs ==> LeaseOk(cfg, s.db.runs[r]))
    requires (step.Retry? || step.RequestCancel?) && step.r == r && after == Apply(cfg, s, step)
    ensures after.db.ledger == s.db.ledger
  {
    if step.Retry? {
      assert !HoldsLease(s.db, r, step.worker);
    } else {
      assert !Unfinished(s.db, r);
    }
  }

  lemma MoveReleasesOnlyItsRun(s: System, step: Step, after: System, r: RunId)
    requires LedgerMove(s, step, after) && !((step.Retry? || step.RequestCancel?) && step.r == r)
             && r in after.db.ledger
    ensures r in s.db.ledger && (after.db.ledger[r] == s.db.ledger[r] || after.db.ledger[r].status == Charged)
  {}

  lemma StrandedLedger(cfg: Config, s: System, step: Step, after: System, r: RunId)
    requires Sound(cfg, s) && Stranded(s, r) && after == Apply(cfg, s, step) && r in after.db.ledger
    requires s.db.ledger.Keys <= s.used
    ensures after.db.ledger[r].status != Released
  {
    if step.Create? {
      CreateLedger(cfg, s, step, after);
    } else if step.SweepSecurity? {
      PurgeLeaves(cfg, s, step, after);
    } else if (step.Retry? || step.RequestCancel?) && step.r == r {
      OkAt(cfg, s.db, r);
      NoReleaseOfEnded(cfg, s, step, after, r);
    } else {
      StepLedger(cfg, s, step, after);
      MoveReleasesOnlyItsRun(s, step, after, r);
    }
  }

  lemma StrandedStep(cfg: Config, s: System, step: Step, after: System, r: RunId)
    requires Sound(cfg, s) && ChargeOk(s) && Stranded(s, r) && after == Apply(cfg, s, step)
    ensures Stranded(after, r)
  {
    UsedOnlyGrows(cfg, s, step, after);
    if r in after.db.ledger { StrandedLedger(cfg, s, step, after, r); }
    if r in after.db.runs {
      if r in s.db.runs {
        TerminalIsAbsorbing(cfg, s, step, after, r);
      } else {
        NewRunIsUnstarted(cfg, s, step, after, r);
      }
    }
  }

  lemma {:induction false} StrandedStays(cfg: Config, s: System, more: seq<Step>, later: System, r: RunId)
    requires Sound(cfg, s) && ChargeOk(s) && Stranded(s, r) && later == Protocol.Run(cfg, s, more)
    ensures Sound(cfg, later) && ChargeOk(later) && Stranded(later, r)
  {
    if more != [] {
      var before := Protocol.Run(cfg, s, more[..|more| - 1]);
      StrandedStays(cfg, s, more[..|more| - 1], before, r);
      SoundStep(cfg, before, more[|more| - 1], later);
      StepKeepsChargeOk(cfg, before, more[|more| - 1], later);
      StrandedStep(cfg, before, more[|more| - 1], later, r);
    }
  }

  /** A unit still reserved when its run has ended is never given back: after any history and whatever
      comes later, its row is never released. */
  lemma StrandedUnitIsNeverReturned(cfg: Config, accounts: map<UserId, Account>, steps: seq<Step>, s: System,
                                    more: seq<Step>, later: System, r: RunId)
    requires s == Protocol.Run(cfg, Fresh(accounts), steps) && later == Protocol.Run(cfg, s, more)
    requires r in s.db.runs && Terminal(s.db.runs[r].status) && r in s.db.ledger && s.db.ledger[r].status == Reserved
    ensures r in later.db.ledger ==> later.db.ledger[r].status != Released
  {
    SoundAlways(cfg, accounts, steps, s);
    ChargeOkAlways(cfg, accounts, steps, s);
    StrandedStays(cfg, s, more, later, r);
  }
}
