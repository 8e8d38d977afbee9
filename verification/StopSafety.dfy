/** A run that was asked to stop before any execution of it began to work is never worked on, and no run is
    stopped that nobody asked to stop. */
module StopSafety {
  import opened Records
  import opened Transactions
  import opened Protocol
  import opened RunInvariants
  import opened RunTransitions
  import opened ChargeSafety

  /** Some execution has set the run working, or the engine has recorded that one has. */
  ghost predicate Begun(s: System, r: RunId) {
    || r in s.checkpoints
    || exists e :: e in s.execs && s.execs[e].run == r && s.execs[e].place in {StatusSet, ChargeDone, Answering}
  }

  // ---------------------------------------------------------------- who begins to work

  /** The execution sets a stored, unfinished run working that nobody has asked to stop. */
  predicate BeginsWork(s: System, step: Step, r: RunId) {
    && step.Begin? && At(s, step.e, AtStart) && s.execs[step.e].run == r && r in s.db.runs
    && s.db.runs[r].status !in {Completed, Failed, Cancelled, Terminated} && s.db.runs[r].cancelRequested.None?
  }

  lemma BeginPlaces(s: System, step: Step, after: System)
    requires step.Begin? && after == ExecStep(s, step)
    ensures after.checkpoints == s.checkpoints
    ensures after.execs == s.execs
            || (At(s, step.e, AtStart)
                && after.execs == s.execs[step.e := s.execs[step.e].(
                     place := if BeginsWork(s, step, s.execs[step.e].run) then StatusSet else Refused)])
    ensures At(s, step.e, AtStart) ==> after.execs != s.execs
  {}

  lemma ResumePlaces(s: System, step: Step, after: System)
    requires (step.Resume? || step.ChargeRun?) && after == ExecStep(s, step)
    ensures after.checkpoints == s.checkpoints
    ensures after.execs == s.execs
            || (step.ChargeRun? && At(s, step.e, StatusSet)
                && after.execs == s.execs[step.e := s.execs[step.e].(place := ChargeDone)])
            || (step.Resume? && At(s, step.e, AtStart) && s.execs[step.e].run in s.checkpoints
                && after.execs == s.execs[step.e := s.execs[step.e].(place := Answering)])
  {}

  /** Apart from a beginning that finds the run fit for work, no step makes a run one that has begun. */
  lemma OnlyBeginBegins(cfg: Config, s: System, step: Step, after: System, r: RunId)
    requires after == Apply(cfg, s, step) && Begun(after, r)
    ensures Begun(s, r) || BeginsWork(s, step, r)
  {
    if step.ClaimNext? || step.Recover? {
      FreshBeginsNone(cfg, s, step, after, r);
    } else if IsExecStep(step) {
      ApplyExec(cfg, s, step);
      ExecBegins(s, step, after, r);
    } else {
      OtherPlaces(cfg, s, step, after);
    }
  }

  lemma FreshBeginsNone(cfg: Config, s: System, step: Step, after: System, r: RunId)
    requires (step.ClaimNext? || step.Recover?) && after == Apply(cfg, s, step) && Begun(after, r)
    ensures Begun(s, r)
  {
    if r !in after.checkpoints {
      var e :| e in after.execs && after.execs[e].run == r
          && after.execs[e].place in {StatusSet, ChargeDone, Answering};
      assert e in s.execs && s.execs[e] == after.execs[e];
    }
  }

  lemma ExecBegins(s: System, step: Step, after: System, r: RunId)
    requires IsExecStep(step) && after == ExecStep(s, step) && Begun(after, r)
    ensures Begun(s, r) || BeginsWork(s, step, r)
  {
    if step.Begin? {
      BeginPlaces(s, step, after);
    } else if step.Resume? || step.ChargeRun? {
      ResumePlaces(s, step, after);
    } else if step.AnnounceThinking? {
      AnnouncePlacesOf(s, step, after);
    } else {
      EndPlacesOf(s, step, after);
    }
    if r !in s.checkpoints && r !in after.checkpoints {
      var e :| e in after.execs && after.execs[e].run == r
          && after.execs[e].place in {StatusSet, ChargeDone, Answering};
      assert e in s.execs && s.execs[e].run == r;
    }
  }

  // ---------------------------------------------------------------- the request stays

  predicate NotWorkedOn(run: Run) {
    run.cancelRequested.Some? && run.status !in {Working, Completed, Terminated}
  }

  lemma BeginLeaves(db: Db, q: RunId, now: Time, after: Db, r: RunId)
    requires after == SetWorking(db, q, now) && r in db.runs && NotWorkedOn(db.runs[r])
    ensures r in after.runs && NotWorkedOn(after.runs[r])
  {}

  lemma EventLeaves(db: Db, q: RunId, body: Body, now: Time, after: Db, r: RunId)
    requires after == AddEvent(db, q, body, now) && r in db.runs && NotWorkedOn(db.runs[r])
    ensures r in after.runs && NotWorkedOn(after.runs[r])
  {}

  lemma BeginStepLeaves(s: System, step: Step, after: System, r: RunId)
    requires (step.Begin? || step.ChargeRun? || step.Resume?) && after == ExecStep(s, step)
    requires r in s.db.runs && NotWorkedOn(s.db.runs[r])
    ensures r in after.db.runs && NotWorkedOn(after.db.runs[r])
  {
    if step.Begin? && At(s, step.e, AtStart) {
      var q := s.execs[step.e].run;
      BeginLeaves(s.db, q, step.now, SetWorking(s.db, q, step.now), r);
    }
  }

  lemma EventStepLeaves(s: System, step: Step, after: System, r: RunId)
    requires (step.AnnounceThinking? || step.Emit?) && after == ExecStep(s, step)
    requires r in s.db.runs && NotWorkedOn(s.db.runs[r])
    ensures r in after.db.runs && NotWorkedOn(after.db.runs[r])
  {
    if after.db != s.db {
      var body := if step.Emit? then step.body else StatusChanged("thinking", "Thinking", None);
      EventLeaves(s.db, s.execs[step.e].run, body, step.now, after.db, r);
    }
  }

  lemma WorkLeaves(s: System, step: Step, after: System, r: RunId)
    requires step.Begin? || step.ChargeRun? || step.AnnounceThinking? || step.Resume? || step.Emit?
    requires after == ExecStep(s, step) && r in s.db.runs && NotWorkedOn(s.db.runs[r])
    ensures r in after.db.runs && NotWorkedOn(after.db.runs[r])
  {
    if step.AnnounceThinking? || step.Emit? {
      EventStepLeaves(s, step, after, r);
    } else {
      BeginStepLeaves(s, step, after, r);
    }
  }

  lemma FinishLeaves(db: Db, q: RunId, status: Status, bodies: seq<Body>, marked: Option<(MessageId, SafetyAction)>,
                     answer: Option<Text>, error: Option<string>, now: Time, after: Db, r: RunId)
    requires after == FinalizeRun(db, q, status, bodies, marked, answer, error, now) && r in db.runs && q != r
    ensures r in after.runs && after.runs[r] == db.runs[r]
  {}

  lemma MarkLeaves(db: Db, q: RunId, now: Time, after: Db, r: RunId)
    requires after == MarkCancelled(db, q, now) && r in db.runs && NotWorkedOn(db.runs[r])
    ensures r in after.runs && NotWorkedOn(after.runs[r])
  {}

  lemma RequestLeaves(db: Db, q: RunId, now: Time, after: Db, r: RunId)
    requires after == RequestCancellation(db, q, now) && r in db.runs && NotWorkedOn(db.runs[r])
    ensures r in after.runs && NotWorkedOn(after.runs[r])
  {}

  lemma ReleaseLeaves(cfg: Config, db: Db, q: RunId, worker: WorkerId, code: string, now: Time, after: Db, r: RunId)
    requires after == ReleaseForRetry(cfg, db, q, worker, code, now) && r in db.runs && NotWorkedOn(db.runs[r])
    ensures r in after.runs && NotWorkedOn(after.runs[r])
  {}

  lemma EndLeaves(s: System, step: Step, after: System, r: RunId)
    requires step.Conclude? || step.ConcludeFailed? || step.CancelRefused?
    requires after == ExecStep(s, step) && r in s.db.runs && NotWorkedOn(s.db.runs[r]) && !Begun(s, r)
    ensures r in after.db.runs && NotWorkedOn(after.db.runs[r])
  {
    if step.e in s.execs {
      var q := s.execs[step.e].run;
      if step.CancelRefused? {
        if At(s, step.e, Refused) { MarkLeaves(s.db, q, step.now, after.db, r); }
      } else if At(s, step.e, Answering) {
        assert q != r;
      }
    }
  }

  lemma DispatchLeaves(cfg: Config, s: System, step: Step, after: System, r: RunId)
    requires step.ClaimNext? || step.RenewLease? || step.Retry? || step.CancelPolled? || step.RequestCancel?
    requires after == Apply(cfg, s, step) && r in s.db.runs && NotWorkedOn(s.db.runs[r])
    ensures r in after.db.runs && NotWorkedOn(after.db.runs[r])
  {
    if step.Retry? {
      ReleaseLeaves(cfg, s.db, step.r, step.worker, step.code, step.now, after.db, r);
    } else if step.RequestCancel? {
      RequestLeaves(s.db, step.r, step.now, after.db, r);
    } else if step.CancelPolled? {
      if after != s { MarkLeaves(s.db, step.r, step.now, after.db, r); }
    } else {
      LeaseLeaves(cfg, s, step, after, r);
    }
  }

  lemma LeaseLeaves(cfg: Config, s: System, step: Step, after: System, r: RunId)
    requires (step.ClaimNext? || step.RenewLease?) && after == Apply(cfg, s, step)
    requires r in s.db.runs && NotWorkedOn(s.db.runs[r])
    ensures r in after.db.runs && NotWorkedOn(after.db.runs[r])
  {}

  lemma RunLeaves(cfg: Config, s: System, step: Step, after: System, r: RunId)
    requires Sound(cfg, s) && after == Apply(cfg, s, step) && r in s.db.runs && r in after.db.runs
    requires NotWorkedOn(s.db.runs[r]) && !Begun(s, r)
    ensures NotWorkedOn(after.db.runs[r])
  {
    if step.Conclude? || step.ConcludeFailed? || step.CancelRefused? {
      ApplyExec(cfg, s, step);
      EndLeaves(s, step, after, r);
    } else if IsExecStep(step) {
      ApplyExec(cfg, s, step);
      WorkLeaves(s, step, after, r);
    } else if step.ClaimNext? || step.RenewLease? || step.Retry? || step.CancelPolled? || step.RequestCancel? {
      DispatchLeaves(cfg, s, step, after, r);
    } else if step.Create? {
      CreateStep(cfg, s, step, after);
    } else if step.SweepRuns? {
      SweepStep(cfg, s, step, after, r);
    } else {
      RestKeepsRuns(cfg, s, step, after);
    }
  }

  // ---------------------------------------------------------------- stopped for good

  /** Asked to stop, if it is still stored, with nothing begun and nothing charged. */
  ghost predicate Halted(s: System, r: RunId) {
    && r in s.used && !Begun(s, r)
    && (r in s.db.runs ==> NotWorkedOn(s.db.runs[r]))
    && (r in s.db.ledger ==> s.db.ledger[r].status != Charged)
  }

  lemma UnitLeaves(cfg: Config, s: System, step: Step, after: System, r: RunId)
    requires Halted(s, r) && after == Apply(cfg, s, step) && r in after.db.ledger
    ensures after.db.ledger[r].status != Charged
  {
    if step.Create? {
      CreateStep(cfg, s, step, after);
      CreateLedger(cfg, s, step, after);
    } else if step.SweepSecurity? {
      PurgeLeaves(cfg, s, step, after);
    } else {
      StepLedger(cfg, s, step, after);
    }
  }

  lemma HaltedStep(cfg: Config, s: System, step: Step, after: System, r: RunId)
    requires Sound(cfg, s) && Halted(s, r) && after == Apply(cfg, s, step)
    ensures Halted(after, r)
  {
    UsedOnlyGrows(cfg, s, step, after);
    if r in after.db.ledger { UnitLeaves(cfg, s, step, after, r); }
    if Begun(after, r) { OnlyBeginBegins(cfg, s, step, after, r); }
    if r in after.db.runs {
      if r in s.db.runs {
        RunLeaves(cfg, s, step, after, r);
      } else {
        NewRunIsUnstarted(cfg, s, step, after, r);
      }
    }
  }

  lemma {:induction false} HaltedStays(cfg: Config, s: System, more: seq<Step>, later: System, r: RunId)
    requires Sound(cfg, s) && Halted(s, r) && later == Protocol.Run(cfg, s, more)
    ensures Sound(cfg, later) && Halted(later, r)
  {
    if more != [] {
      var before := Protocol.Run(cfg, s, more[..|more| - 1]);
      HaltedStays(cfg, s, more[..|more| - 1], before, r);
      SoundStep(cfg, before, more[|more| - 1], later);
      HaltedStep(cfg, before, more[|more| - 1], later, r);
    }
  }

  // ---------------------------------------------------------------- what is true of every history

  /** Working, or charged, means begun; and whoever answers has been recorded. */
  ghost predicate WorkIsBegun(s: System) {
    && (forall e :: e in s.execs && s.execs[e].place == Answering ==> s.execs[e].run in s.checkpoints)
    && (forall r :: r in s.db.runs && s.db.runs[r].status == Working ==> Begun(s, r))
    && (forall r :: r in s.db.runs && r in s.db.ledger && s.db.ledger[r].status == Charged ==> Begun(s, r))
  }

  /** A stored run that has begun stays one. */
  lemma BegunStays(cfg: Config, s: System, step: Step, after: System, r: RunId)
    requires WorkIsBegun(s) && after == Apply(cfg, s, step) && Begun(s, r) && r in s.db.runs
    ensures Begun(after, r)
  {
    if IsExecStep(step) {
      ApplyExec(cfg, s, step);
      ExecKeepsBegun(s, step, after, r);
    } else {
      OthersKeepPlaces(cfg, s, step, after);
      if r !in s.checkpoints {
        var e :| e in s.execs && s.execs[e].run == r && s.execs[e].place in {StatusSet, ChargeDone, Answering};
        assert e in after.execs && after.execs[e] == s.execs[e];
      }
    }
  }

  lemma OthersKeepPlaces(cfg: Config, s: System, step: Step, after: System)
    requires !IsExecStep(step) && after == Apply(cfg, s, step)
    ensures after.checkpoints == s.checkpoints
    ensures forall e :: e in s.execs ==> e in after.execs && after.execs[e] == s.execs[e]
    ensures forall e :: e in after.execs && e !in s.execs ==> after.execs[e].place == AtStart
  {
    if !step.ClaimNext? && !step.Recover? { OtherPlaces(cfg, s, step, after); }
  }

  lemma ExecKeepsBegun(s: System, step: Step, after: System, r: RunId)
    requires WorkIsBegun(s) && IsExecStep(step) && after == ExecStep(s, step) && Begun(s, r) && r in s.db.runs
    ensures Begun(after, r)
  {
    if step.Begin? {
      BeginPlaces(s, step, after);
    } else if step.Resume? || step.ChargeRun? {
      ResumePlaces(s, step, after);
    } else if step.AnnounceThinking? {
      AnnounceOfStored(s, step, after);
    } else {
      EndPlaces(s, step, after);
    }
    if r !in after.checkpoints {
      var e :| e in s.execs && s.execs[e].run == r && s.execs[e].place in {StatusSet, ChargeDone, Answering};
      assert e in after.execs && after.execs[e].run == r && after.execs[e].place in {StatusSet, ChargeDone, Answering};
    }
  }

  lemma AnnounceOfStored(s: System, step: Step, after: System)
    requires step.AnnounceThinking? && after == ExecStep(s, step)
    ensures || (after.checkpoints == s.checkpoints && after.execs == s.execs)
            || (At(s, step.e, ChargeDone) && s.execs[step.e].run !in s.db.runs && after.checkpoints == s.checkpoints
                && after.execs == s.execs[step.e := s.execs[step.e].(place := Over)])
            || (At(s, step.e, ChargeDone) && after.checkpoints == s.checkpoints + {s.execs[step.e].run}
                && after.execs == s.execs[step.e := s.execs[step.e].(place := Answering)])
  {}

  lemma EndPlaces(s: System, step: Step, after: System)
    requires (step.Conclude? || step.ConcludeFailed? || step.CancelRefused? || step.Emit?) && after == ExecStep(s, step)
    ensures after.checkpoints == s.checkpoints
    ensures after.execs == s.execs
            || (step.e in s.execs && s.execs[step.e].place in {Answering, Refused}
                && after.execs == s.execs[step.e := s.execs[step.e].(place := Over)])
  {}

  lemma AnswerersAreRecorded(cfg: Config, s: System, step: Step, after: System, e: ExecId)
    requires WorkIsBegun(s) && after == Apply(cfg, s, step) && e in after.execs && after.execs[e].place == Answering
    ensures after.execs[e].run in after.checkpoints
  {
    if IsExecStep(step) {
      ApplyExec(cfg, s, step);
      if step.Begin? {
        BeginPlaces(s, step, after);
      } else if step.Resume? || step.ChargeRun? {
        ResumePlaces(s, step, after);
      } else if step.AnnounceThinking? {
        AnnounceOfStored(s, step, after);
      } else {
        EndPlaces(s, step, after);
      }
    } else {
      OthersKeepPlaces(cfg, s, step, after);
    }
  }

  /** Only a beginning that finds the run fit for work sets it working. */
  lemma OnlyBeginWorks(cfg: Config, s: System, step: Step, after: System, r: RunId)
    requires Sound(cfg, s) && after == Apply(cfg, s, step) && r in s.db.runs && r in after.db.runs
    requires after.db.runs[r].status == Working && s.db.runs[r].status != Working
    ensures BeginsWork(s, step, r) && Begun(after, r)
  {
    if step.Begin? {
      ApplyExec(cfg, s, step);
      BeginSetsWorking(s, step, after, r);
      assert after.execs[step.e].run == r;
    } else if IsExecStep(step) {
      ApplyExec(cfg, s, step);
      ExecSetsNoneWorking(s, step, after, r);
    } else if step.ClaimNext? || step.RenewLease? || step.Retry? || step.CancelPolled? || step.RequestCancel? {
      DispatchSetsNoneWorking(cfg, s, step, after, r);
    } else if step.Create? {
      CreateStep(cfg, s, step, after);
    } else if step.SweepRuns? {
      SweepStep(cfg, s, step, after, r);
    } else {
      RestKeepsRuns(cfg, s, step, after);
    }
  }

  lemma BeginSetsWorking(s: System, step: Step, after: System, r: RunId)
    requires step.Begin? && after == ExecStep(s, step) && r in s.db.runs && r in after.db.runs
    requires after.db.runs[r].status == Working && s.db.runs[r].status != Working
    ensures BeginsWork(s, step, r) && At(after, step.e, StatusSet) && after.execs[step.e].run == r
  {}

  lemma ExecSetsNoneWorking(s: System, step: Step, after: System, r: RunId)
    requires IsExecStep(step) && !step.Begin? && after == ExecStep(s, step) && r in s.db.runs && r in after.db.runs
    ensures after.db.runs[r].status == Working ==> s.db.runs[r].status == Working
  {}

  lemma ReleaseSetsNoneWorking(cfg: Config, db: Db, q: RunId, worker: WorkerId, code: string, now: Time, after: Db,
                               r: RunId)
    requires after == ReleaseForRetry(cfg, db, q, worker, code, now) && r in db.runs && r in after.runs
    ensures after.runs[r].status == Working ==> db.runs[r].status == Working
  {}

  lemma CancelSetsNoneWorking(db: Db, q: RunId, now: Time, after: Db, r: RunId)
    requires (after == RequestCancellation(db, q, now) || after == MarkCancelled(db, q, now))
    requires r in db.runs && r in after.runs
    ensures after.runs[r].status == Working ==> db.runs[r].status == Working
  {}

  lemma DispatchSetsNoneWorking(cfg: Config, s: System, step: Step, after: System, r: RunId)
    requires step.ClaimNext? || step.RenewLease? || step.Retry? || step.CancelPolled? || step.RequestCancel?
    requires after == Apply(cfg, s, step) && r in s.db.runs && r in after.db.runs
    ensures after.db.runs[r].status == Working ==> s.db.runs[r].status == Working
  {
    if step.Retry? {
      ReleaseSetsNoneWorking(cfg, s.db, step.r, step.worker, step.code, step.now, after.db, r);
    } else if step.CancelPolled? || step.RequestCancel? {
      if after != s { CancelSetsNoneWorking(s.db, step.r, step.now, after.db, r); }
    }
  }

  /** A unit becomes charged by an execution that has begun to work on a stored run or an unstored one. */
  lemma OnlyBegunCharges(cfg: Config, s: System, step: Step, after: System, r: RunId)
    requires after == Apply(cfg, s, step) && r in after.db.ledger && after.db.ledger[r].status == Charged
    ensures (r in s.db.ledger && s.db.ledger[r].status == Charged) || (ChargesAt(s, step) && s.execs[step.e].run == r)
  {
    if step.Create? {
      CreateLedger(cfg, s, step, after);
    } else if step.SweepSecurity? {
      PurgeLeaves(cfg, s, step, after);
    } else {
      StepLedger(cfg, s, step, after);
    }
  }

  lemma WorkingIsBegun(cfg: Config, s: System, step: Step, after: System, r: RunId)
    requires Sound(cfg, s) && WorkIsBegun(s) && after == Apply(cfg, s, step)
    requires r in after.db.runs && after.db.runs[r].status == Working
    ensures Begun(after, r)
  {
    if r !in s.db.runs {
      NewRunIsUnstarted(cfg, s, step, after, r);
      assert false;
    } else if s.db.runs[r].status == Working {
      BegunStays(cfg, s, step, after, r);
    } else {
      OnlyBeginWorks(cfg, s, step, after, r);
    }
  }

  lemma ChargedIsBegun(cfg: Config, s: System, step: Step, after: System, r: RunId)
    requires Sound(cfg, s) && KnownIds(s) && WorkIsBegun(s) && after == Apply(cfg, s, step)
    requires r in after.db.runs && r in after.db.ledger && after.db.ledger[r].status == Charged
    ensures Begun(after, r)
  {
    OnlyBegunCharges(cfg, s, step, after, r);
    if r !in s.db.runs { NewRunIsUnstarted(cfg, s, step, after, r); }
    BegunStays(cfg, s, step, after, r);
  }

  lemma WorkIsBegunStep(cfg: Config, s: System, step: Step, after: System)
    requires Sound(cfg, s) && KnownIds(s) && WorkIsBegun(s) && after == Apply(cfg, s, step)
    ensures WorkIsBegun(after)
  {
    forall e | e in after.execs && after.execs[e].place == Answering ensures after.execs[e].run in after.checkpoints {
      AnswerersAreRecorded(cfg, s, step, after, e);
    }
    forall r | r in after.db.runs && after.db.runs[r].status == Working ensures Begun(after, r) {
      WorkingIsBegun(cfg, s, step, after, r);
    }
    forall r | r in after.db.runs && r in after.db.ledger && after.db.ledger[r].status == Charged
      ensures Begun(after, r)
    {
      ChargedIsBegun(cfg, s, step, after, r);
    }
  }

  /** In every reachable state a run that works, or whose unit is charged, has begun. */
  lemma {:induction false} WorkIsBegunAlways(cfg: Config, accounts: map<UserId, Account>, steps: seq<Step>, s: System)
    requires s == Protocol.Run(cfg, Fresh(accounts), steps)
    ensures WorkIsBegun(s)
  {
    if steps != [] {
      var before := Protocol.Run(cfg, Fresh(accounts), steps[..|steps| - 1]);
      SoundAlways(cfg, accounts, steps[..|steps| - 1], before);
      ChargeOkAlways(cfg, accounts, steps[..|steps| - 1], before);
      WorkIsBegunAlways(cfg, accounts, steps[..|steps| - 1], before);
      WorkIsBegunStep(cfg, before, steps[|steps| - 1], s);
    }
  }

  // ---------------------------------------------------------------- the stop is obeyed

  lemma HaltedIsRefused(cfg: Config, s: System, e: ExecId, now: Time, after: System)
    requires At(s, e, AtStart) && Halted(s, s.execs[e].run) && after == Apply(cfg, s, Begin(e, now))
    ensures after == s.(execs := s.execs[e := Exec(s.execs[e].run, s.execs[e].worker, Refused)])
  {
    ApplyExec(cfg, s, Begin(e, now));
  }

  /** A run that was asked to stop while unfinished, and that no execution had yet set working, is never
      worked on: over any later history it is neither working nor completed nor terminated, its unit is not
      charged, and every execution of it that begins is refused. */
  lemma StoppedIsNeverWorkedOn(cfg: Config, accounts: map<UserId, Account>, steps: seq<Step>, s: System,
                               more: seq<Step>, later: System, r: RunId)
    requires s == Protocol.Run(cfg, Fresh(accounts), steps) && later == Protocol.Run(cfg, s, more)
    requires r in s.db.runs && s.db.runs[r].cancelRequested.Some?
             && s.db.runs[r].status !in {Completed, Failed, Cancelled, Terminated}
    requires r !in s.checkpoints
    requires forall e :: e in s.execs && s.execs[e].run == r ==>
             s.execs[e].place !in {StatusSet, ChargeDone, Answering}
    ensures r in later.db.runs ==> later.db.runs[r].status !in {Working, Completed, Terminated}
    ensures r in later.db.ledger ==> later.db.ledger[r].status != Charged
    ensures forall e :: e in later.execs && later.execs[e].run == r ==>
            later.execs[e].place !in {StatusSet, ChargeDone, Answering}
    ensures forall e, now :: At(later, e, AtStart) && later.execs[e].run == r ==>
            Apply(cfg, later, Begin(e, now)) ==
            later.(execs := later.execs[e := Exec(r, later.execs[e].worker, Refused)])
  {
    SoundAlways(cfg, accounts, steps, s);
    WorkIsBegunAlways(cfg, accounts, steps, s);
    assert !Begun(s, r) && Halted(s, r);
    HaltedStays(cfg, s, more, later, r);
    forall e, now | At(later, e, AtStart) && later.execs[e].run == r
      ensures Apply(cfg, later, Begin(e, now)) ==
              later.(execs := later.execs[e := Exec(r, later.execs[e].worker, Refused)])
    {
      HaltedIsRefused(cfg, later, e, now, Apply(cfg, later, Begin(e, now)));
    }
  }

  // ---------------------------------------------------------------- a request that comes in time

  lemma RequestAsks(db: Db, r: RunId, now: Time, after: Db)
    requires after == RequestCancellation(db, r, now) && r in db.runs && db.runs[r].cancelRequested.None?
    requires db.runs[r].status !in {Completed, Failed, Cancelled, Terminated}
    ensures r in after.runs && after.runs[r].cancelRequested == Some(now)
            && after.runs[r].status == (if db.runs[r].status == Status.Accepted then Cancelled else db.runs[r].status)
  {}

  /** A request for a dispatched run on which no execution has begun to work comes in time. */
  lemma RequestInTime(cfg: Config, accounts: map<UserId, Account>, steps: seq<Step>, s: System, r: RunId, now: Time,
                      more: seq<Step>, later: System)
    requires s == Protocol.Run(cfg, Fresh(accounts), steps)
    requires later == Protocol.Run(cfg, Apply(cfg, s, RequestCancel(r, now)), more)
    requires r in s.db.runs && s.db.runs[r].status == Dispatched && !Begun(s, r)
    ensures r in later.db.runs ==> later.db.runs[r].status !in {Working, Completed, Terminated}
    ensures r in later.db.ledger ==> later.db.ledger[r].status != Charged
    ensures !Begun(later, r)
  {
    var asked := Apply(cfg, s, RequestCancel(r, now));
    SoundAlways(cfg, accounts, steps, s);
    WorkIsBegunAlways(cfg, accounts, steps, s);
    SoundStep(cfg, s, RequestCancel(r, now), asked);
    RequestHalts(cfg, s, r, now, asked);
    HaltedStays(cfg, asked, more, later, r);
  }

  lemma RequestHalts(cfg: Config, s: System, r: RunId, now: Time, asked: System)
    requires Sound(cfg, s) && WorkIsBegun(s) && asked == Apply(cfg, s, RequestCancel(r, now))
    requires r in s.db.runs && s.db.runs[r].status == Dispatched && !Begun(s, r)
    ensures Halted(asked, r)
  {
    if s.db.runs[r].cancelRequested.None? { RequestAsks(s.db, r, now, asked.db); }
    RequestKeepsPlaces(cfg, s, r, now, asked);
    if r in asked.db.ledger && asked.db.ledger[r].status == Charged {
      OnlyBegunCharges(cfg, s, RequestCancel(r, now), asked, r);
    }
  }

  lemma RequestKeepsPlaces(cfg: Config, s: System, r: RunId, now: Time, after: System)
    requires after == Apply(cfg, s, RequestCancel(r, now))
    ensures after.checkpoints == s.checkpoints && after.execs == s.execs && after.used == s.used
    ensures r in s.db.runs && s.db.runs[r].cancelRequested.Some? ==> after == s
  {
    OtherPlaces(cfg, s, RequestCancel(r, now), after);
  }

  // ---------------------------------------------------------------- the first dispatch

  /** A run never claimed has no execution, and one claimed once has begun only if it no longer waits for its
      worker. */
  ghost predicate FirstDispatch(s: System, r: RunId) {
    r in s.db.runs ==>
      && (s.db.runs[r].attempts == 0 ==> r !in s.checkpoints && forall e :: e in s.execs ==> s.execs[e].run != r)
      && (s.db.runs[r].attempts == 1 && s.db.runs[r].status == Dispatched ==> !Begun(s, r))
  }

  lemma NewIsUnclaimed(cfg: Config, s: System, step: Step, after: System, r: RunId)
    requires Sound(cfg, s) && KnownIds(s) && after == Apply(cfg, s, step) && r !in s.db.runs && r in after.db.runs
    ensures FirstDispatch(after, r)
  {
    NewRunIsUnstarted(cfg, s, step, after, r);
    CreateLedger(cfg, s, step, after);
  }

  lemma UnclaimedHasNone(cfg: Config, s: System, step: Step, after: System, r: RunId)
    requires after == Apply(cfg, s, step) && r in s.db.runs && r in after.db.runs && after.db.runs[r].attempts == 0
    requires r !in s.checkpoints && (forall e :: e in s.execs ==> s.execs[e].run != r)
    ensures r !in after.checkpoints && forall e :: e in after.execs ==> after.execs[e].run != r
  {
    if step.ClaimNext? {
      ClaimOfRow(cfg, s, step, after, r);
    } else if step.Recover? {
      RecoverKeepsDb(cfg, s, step, after);
    } else if IsExecStep(step) {
      ApplyExec(cfg, s, step);
      ExecPlacesOf(s, step, after);
    } else {
      OtherPlaces(cfg, s, step, after);
    }
  }

  lemma OnceClaimedHasNotBegun(cfg: Config, s: System, step: Step, after: System, r: RunId)
    requires Sound(cfg, s) && FirstDispatch(s, r) && after == Apply(cfg, s, step) && r in s.db.runs
             && r in after.db.runs
    requires after.db.runs[r].attempts == 1 && after.db.runs[r].status == Dispatched
    ensures !Begun(after, r)
  {
    OkAt(cfg, s.db, r);
    StepKeepsRow(cfg, s, step, after, r);
    if Begun(after, r) {
      OnlyBeginBegins(cfg, s, step, after, r);
      if BeginsWork(s, step, r) { BeginSets(cfg, s, step, after, r); }
    }
  }

  lemma BeginSets(cfg: Config, s: System, step: Step, after: System, r: RunId)
    requires BeginsWork(s, step, r) && after == Apply(cfg, s, step)
    ensures r in after.db.runs && after.db.runs[r].status == Working && At(after, step.e, StatusSet)
  {
    ApplyExec(cfg, s, step);
  }

  lemma FirstDispatchStep(cfg: Config, s: System, step: Step, after: System, r: RunId)
    requires Sound(cfg, s) && KnownIds(s) && FirstDispatch(s, r) && after == Apply(cfg, s, step)
    ensures FirstDispatch(after, r)
  {
    if r in after.db.runs {
      if r !in s.db.runs {
        NewIsUnclaimed(cfg, s, step, after, r);
      } else {
        ClaimCountsAttempt(cfg, s, step, after, r);
        if after.db.runs[r].attempts == 0 {
          UnclaimedHasNone(cfg, s, step, after, r);
        } else if after.db.runs[r].attempts == 1 && after.db.runs[r].status == Dispatched {
          OnceClaimedHasNotBegun(cfg, s, step, after, r);
        }
      }
    }
  }

  lemma {:induction false} FirstDispatchAlways(cfg: Config, accounts: map<UserId, Account>, steps: seq<Step>,
                                               s: System, r: RunId)
    requires s == Protocol.Run(cfg, Fresh(accounts), steps)
    ensures FirstDispatch(s, r)
  {
    if steps != [] {
      var before := Protocol.Run(cfg, Fresh(accounts), steps[..|steps| - 1]);
      SoundAlways(cfg, accounts, steps[..|steps| - 1], before);
      ChargeOkAlways(cfg, accounts, steps[..|steps| - 1], before);
      FirstDispatchAlways(cfg, accounts, steps[..|steps| - 1], before, r);
      FirstDispatchStep(cfg, before, steps[|steps| - 1], s, r);
    }
  }

  /** A user who stops a run that has been dispatched for the first time and is not yet working is never
      charged for it and never answered, whatever the worker does meanwhile. */
  lemma FirstDispatchStops(cfg: Config, accounts: map<UserId, Account>, steps: seq<Step>, s: System, r: RunId,
                           now: Time, more: seq<Step>, later: System)
    requires s == Protocol.Run(cfg, Fresh(accounts), steps)
    requires later == Protocol.Run(cfg, Apply(cfg, s, RequestCancel(r, now)), more)
    requires r in s.db.runs && s.db.runs[r].status == Dispatched && s.db.runs[r].attempts == 1
    ensures r in later.db.runs ==> later.db.runs[r].status !in {Working, Completed, Terminated}
    ensures r in later.db.ledger ==> later.db.ledger[r].status != Charged
  {
    FirstDispatchAlways(cfg, accounts, steps, s, r);
    RequestInTime(cfg, accounts, steps, s, r, now, more, later);
  }

  // ---------------------------------------------------------------- nobody else stops a run

  /** Asked to stop, or cancelled. */
  predicate StopShown(run: Run) {
    run.cancelRequested.Some? || run.status == Cancelled
  }

  /** Some step of the history asks for the run's stop. */
  predicate StopAsked(steps: seq<Step>, r: RunId) {
    exists i :: 0 <= i < |steps| && steps[i].RequestCancel? && steps[i].r == r
  }

  lemma FinalizeShowsNone(db: Db, q: RunId, status: Status, bodies: seq<Body>,
                          marked: Option<(MessageId, SafetyAction)>, answer: Option<Text>, error: Option<string>,
                          now: Time, after: Db, r: RunId)
    requires after == FinalizeRun(db, q, status, bodies, marked, answer, error, now) && status != Cancelled
    requires r in db.runs && r in after.runs && StopShown(after.runs[r])
    ensures StopShown(db.runs[r])
  {}

  lemma SetWorkingShowsNone(db: Db, q: RunId, now: Time, after: Db, r: RunId)
    requires after == SetWorking(db, q, now) && r in db.runs && r in after.runs && StopShown(after.runs[r])
    ensures StopShown(db.runs[r])
  {}

  lemma EventShowsNone(db: Db, q: RunId, body: Body, now: Time, after: Db, r: RunId)
    requires after == AddEvent(db, q, body, now) && r in db.runs && r in after.runs && StopShown(after.runs[r])
    ensures StopShown(db.runs[r])
  {}

  lemma MarkShows(db: Db, q: RunId, now: Time, after: Db, r: RunId)
    requires after == MarkCancelled(db, q, now) && r in db.runs && r in after.runs && StopShown(after.runs[r])
    ensures StopShown(db.runs[r]) || (q == r && Unfinished(db, r))
  {}

  lemma RequestShows(db: Db, q: RunId, now: Time, after: Db, r: RunId)
    requires after == RequestCancellation(db, q, now) && r in db.runs && r in after.runs && StopShown(after.runs[r])
    ensures StopShown(db.runs[r]) || q == r
  {}

  lemma ReleaseShowsNone(cfg: Config, db: Db, q: RunId, worker: WorkerId, code: string, now: Time, after: Db, r: RunId)
    requires after == ReleaseForRetry(cfg, db, q, worker, code, now) && r in db.runs && r in after.runs
    requires StopShown(after.runs[r])
    ensures StopShown(db.runs[r])
  {}

  lemma EndShows(s: System, step: Step, after: System, r: RunId)
    requires (step.Conclude? || step.ConcludeFailed? || step.CancelRefused?) && after == ExecStep(s, step)
    requires r in s.db.runs && r in after.db.runs && StopShown(after.db.runs[r])
    ensures StopShown(s.db.runs[r])
            || (At(s, step.e, Refused) && s.execs[step.e].run == r && Unfinished(s.db, r))
  {
    if step.e in s.execs && after.db != s.db {
      var q := s.execs[step.e].run;
      if step.CancelRefused? {
        MarkShows(s.db, q, step.now, after.db, r);
      } else if step.ConcludeFailed? {
        FinalizeShowsNone(s.db, q, Failed, [RunFailed(step.code, UNREACHABLE_COPY)], None, None, Some(step.code),
                          step.now, after.db, r);
      } else {
        var t := step.turn;
        FinalizeShowsNone(s.db, q, TurnStatus(t), TurnEvents(t), Some((s.db.runs[q].message, TurnAction(t))),
                          TurnAnswer(t), None, step.now, after.db, r);
      }
    }
  }

  lemma WorkShowsNone(s: System, step: Step, after: System, r: RunId)
    requires step.Begin? || step.ChargeRun? || step.AnnounceThinking? || step.Resume? || step.Emit?
    requires after == ExecStep(s, step) && r in s.db.runs && r in after.db.runs && StopShown(after.db.runs[r])
    ensures StopShown(s.db.runs[r])
  {
    if after.db != s.db && !step.ChargeRun? {
      var q := s.execs[step.e].run;
      if step.Begin? {
        SetWorkingShowsNone(s.db, q, step.now, after.db, r);
      } else {
        EventShowsNone(s.db, q, if step.Emit? then step.body else StatusChanged("thinking", "Thinking", None), step.now,
                       after.db, r);
      }
    }
  }

  lemma DispatchShows(cfg: Config, s: System, step: Step, after: System, r: RunId)
    requires step.ClaimNext? || step.RenewLease? || step.Retry? || step.CancelPolled? || step.RequestCancel?
    requires after == Apply(cfg, s, step) && r in s.db.runs && r in after.db.runs && StopShown(after.db.runs[r])
    ensures StopShown(s.db.runs[r]) || (step.RequestCancel? && step.r == r)
  {
    if step.Retry? {
      ReleaseShowsNone(cfg, s.db, step.r, step.worker, step.code, step.now, after.db, r);
    } else if step.RequestCancel? {
      RequestShows(s.db, step.r, step.now, after.db, r);
    } else if step.CancelPolled? && after != s {
      MarkShows(s.db, step.r, step.now, after.db, r);
    }
  }

  /** A run shows a stop only by a request for it, or by a refused execution of it. */
  lemma StepShows(cfg: Config, s: System, step: Step, after: System, r: RunId)
    requires Sound(cfg, s) && after == Apply(cfg, s, step) && r in after.db.runs && StopShown(after.db.runs[r])
    ensures || (r in s.db.runs && StopShown(s.db.runs[r])) || (step.RequestCancel? && step.r == r)
            || (step.CancelRefused? && At(s, step.e, Refused) && s.execs[step.e].run == r && Unfinished(s.db, r))
  {
    if r !in s.db.runs {
      NewRunIsUnstarted(cfg, s, step, after, r);
    } else if step.Conclude? || step.ConcludeFailed? || step.CancelRefused? {
      ApplyExec(cfg, s, step);
      EndShows(s, step, after, r);
    } else if IsExecStep(step) {
      ApplyExec(cfg, s, step);
      WorkShowsNone(s, step, after, r);
    } else if step.ClaimNext? || step.RenewLease? || step.Retry? || step.CancelPolled? || step.RequestCancel? {
      DispatchShows(cfg, s, step, after, r);
    } else if step.Create? {
      CreateStep(cfg, s, step, after);
    } else if step.SweepRuns? {
      SweepStep(cfg, s, step, after, r);
    } else {
      RestKeepsRuns(cfg, s, step, after);
    }
  }

  /** A refused execution's run is gone, over, or asked to stop; and every stop shown was asked for. */
  ghost predicate StopsExplained(s: System, steps: seq<Step>) {
    && (forall e :: e in s.execs && s.execs[e].place == Refused ==>
          s.execs[e].run in s.used
          && (Unfinished(s.db, s.execs[e].run) ==> s.db.runs[s.execs[e].run].cancelRequested.Some?))
    && (forall r :: r in s.db.runs && StopShown(s.db.runs[r]) ==> StopAsked(steps, r))
  }

  lemma RefusalsComeFrom(cfg: Config, s: System, step: Step, after: System, e: ExecId)
    requires after == Apply(cfg, s, step) && e in after.execs && after.execs[e].place == Refused
    ensures e in s.execs && after.execs[e].run == s.execs[e].run
    ensures s.execs[e].place == Refused || (step.Begin? && step.e == e && !BeginsWork(s, step, s.execs[e].run)
                                            && s.execs[e].place == AtStart && after.db == s.db)
  {
    if step.Begin? {
      ApplyExec(cfg, s, step);
      BeginPlaces(s, step, after);
    } else if step.Resume? || step.ChargeRun? {
      ApplyExec(cfg, s, step);
      ResumePlaces(s, step, after);
    } else if IsExecStep(step) {
      ApplyExec(cfg, s, step);
      ExecPlacesOf(s, step, after);
      if step.AnnounceThinking? { AnnouncePlacesOf(s, step, after); } else { EndPlacesOf(s, step, after); }
    } else {
      OthersKeepPlaces(cfg, s, step, after);
    }
  }

  lemma RequestStays(cfg: Config, s: System, step: Step, after: System, r: RunId)
    requires Sound(cfg, s) && after == Apply(cfg, s, step) && r in s.used && Unfinished(after.db, r)
    requires Unfinished(s.db, r) ==> s.db.runs[r].cancelRequested.Some?
    ensures after.db.runs[r].cancelRequested.Some?
  {
    if r !in s.db.runs {
      NewRunIsUnstarted(cfg, s, step, after, r);
    } else if Terminal(s.db.runs[r].status) {
      TerminalIsAbsorbing(cfg, s, step, after, r);
    } else {
      RequestKept(cfg, s, step, after, r);
    }
  }

  lemma RequestKept(cfg: Config, s: System, step: Step, after: System, r: RunId)
    requires Sound(cfg, s) && after == Apply(cfg, s, step) && r in s.db.runs && r in after.db.runs
    requires s.db.runs[r].cancelRequested.Some?
    ensures after.db.runs[r].cancelRequested.Some?
  {
    if step.Create? {
      CreateStep(cfg, s, step, after);
    } else if step.SweepRuns? {
      SweepStep(cfg, s, step, after, r);
    } else if IsExecStep(step) {
      ApplyExec(cfg, s, step);
      ExecKeepsRequest(s, step, after, r);
    } else if step.Retry? {
      ReleaseKeepsRequest(cfg, s.db, step.r, step.worker, step.code, step.now, after.db, r);
    } else if step.CancelPolled? || step.RequestCancel? {
      if after != s { CancelKeepsRequest(s.db, step.r, step.now, after.db, r); }
    } else if step.ClaimNext? || step.RenewLease? {
      LeaseKeepsRequest(cfg, s, step, after, r);
    } else {
      RestKeepsRuns(cfg, s, step, after);
    }
  }

  lemma ExecKeepsRequest(s: System, step: Step, after: System, r: RunId)
    requires IsExecStep(step) && after == ExecStep(s, step) && r in s.db.runs && r in after.db.runs
    requires s.db.runs[r].cancelRequested.Some?
    ensures after.db.runs[r].cancelRequested.Some?
  {}

  lemma ReleaseKeepsRequest(cfg: Config, db: Db, q: RunId, worker: WorkerId, code: string, now: Time, after: Db,
                            r: RunId)
    requires after == ReleaseForRetry(cfg, db, q, worker, code, now) && r in db.runs && r in after.runs
    ensures after.runs[r].cancelRequested == db.runs[r].cancelRequested
  {}

  lemma CancelKeepsRequest(db: Db, q: RunId, now: Time, after: Db, r: RunId)
    requires (after == RequestCancellation(db, q, now) || after == MarkCancelled(db, q, now))
    requires r in db.runs && r in after.runs && db.runs[r].cancelRequested.Some?
    ensures after.runs[r].cancelRequested.Some?
  {}

  lemma LeaseKeepsRequest(cfg: Config, s: System, step: Step, after: System, r: RunId)
    requires (step.ClaimNext? || step.RenewLease?) && after == Apply(cfg, s, step)
    requires r in s.db.runs && r in after.db.runs
    ensures after.db.runs[r].cancelRequested == s.db.runs[r].cancelRequested
  {}

  lemma RefusalExplained(cfg: Config, s: System, steps: seq<Step>, step: Step, after: System, e: ExecId)
    requires Sound(cfg, s) && KnownIds(s) && StopsExplained(s, steps) && after == Apply(cfg, s, step)
    requires e in after.execs && after.execs[e].place == Refused
    ensures after.execs[e].run in after.used
    ensures Unfinished(after.db, after.execs[e].run) ==> after.db.runs[after.execs[e].run].cancelRequested.Some?
  {
    RefusalsComeFrom(cfg, s, step, after, e);
    UsedOnlyGrows(cfg, s, step, after);
    var r := s.execs[e].run;
    if Unfinished(after.db, r) { RequestStays(cfg, s, step, after, r); }
  }

  lemma StopExplained(cfg: Config, s: System, steps: seq<Step>, step: Step, after: System, r: RunId)
    requires Sound(cfg, s) && StopsExplained(s, steps) && after == Apply(cfg, s, step)
    requires r in after.db.runs && StopShown(after.db.runs[r])
    ensures StopAsked(steps, r) || (step.RequestCancel? && step.r == r)
  {
    StepShows(cfg, s, step, after, r);
  }

  lemma AskedLater(steps: seq<Step>, most: seq<Step>, step: Step, r: RunId)
    requires steps == most + [step] && (StopAsked(most, r) || (step.RequestCancel? && step.r == r))
    ensures StopAsked(steps, r)
  {
    assert steps[|most|] == step;
    if i :| 0 <= i < |most| && most[i].RequestCancel? && most[i].r == r { assert steps[i] == most[i]; }
  }

  lemma StopsExplainedStep(cfg: Config, s: System, most: seq<Step>, step: Step, after: System, steps: seq<Step>)
    requires Sound(cfg, s) && KnownIds(s) && StopsExplained(s, most) && after == Apply(cfg, s, step)
    requires steps == most + [step]
    ensures StopsExplained(after, steps)
  {
    forall e | e in after.execs && after.execs[e].place == Refused
      ensures after.execs[e].run in after.used
              && (Unfinished(after.db, after.execs[e].run) ==>
                    after.db.runs[after.execs[e].run].cancelRequested.Some?)
    {
      RefusalExplained(cfg, s, most, step, after, e);
    }
    forall r | r in after.db.runs && StopShown(after.db.runs[r]) ensures StopAsked(steps, r) {
      StopExplained(cfg, s, most, step, after, r);
      AskedLater(steps, most, step, r);
    }
  }

  lemma {:induction false} StopsExplainedAlways(cfg: Config, accounts: map<UserId, Account>, steps: seq<Step>,
                                                s: System)
    requires s == Protocol.Run(cfg, Fresh(accounts), steps)
    ensures StopsExplained(s, steps)
  {
    if steps != [] {
      var most, step := steps[..|steps| - 1], steps[|steps| - 1];
      var before := Protocol.Run(cfg, Fresh(accounts), most);
      SoundAlways(cfg, accounts, most, before);
      ChargeOkAlways(cfg, accounts, most, before);
      StopsExplainedAlways(cfg, accounts, most, before);
      StopsExplainedStep(cfg, before, most, step, s, steps);
    }
  }

  /** Over every history a run is cancelled, or marked to be stopped, only if somebody asked for that run's
      stop. */
  lemma CancelledWasRequested(cfg: Config, accounts: map<UserId, Account>, steps: seq<Step>, s: System, r: RunId)
    requires s == Protocol.Run(cfg, Fresh(accounts), steps)
    requires r in s.db.runs && (s.db.runs[r].status == Cancelled || s.db.runs[r].cancelRequested.Some?)
    ensures exists i :: 0 <= i < |steps| && steps[i].RequestCancel? && steps[i].r == r
  {
    StopsExplainedAlways(cfg, accounts, steps, s);
    assert StopShown(s.db.runs[r]);
  }
}
