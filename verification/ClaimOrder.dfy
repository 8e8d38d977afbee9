/** When a waiting run is claimed: not before its delay is over, in the order of its times, and for one lease. */
module ClaimOrder {
  import opened Records
  import opened Transactions
  import opened Protocol
  import opened RunInvariants
  import opened RunTransitions

  // ---------------------------------------------------------------- who may be claimed

  /** The run waits and its time has come, or its worker's lease has run out; nobody has asked it to stop
      and it has attempts left. */
  predicate Ready(cfg: Config, run: Run, now: Time) {
    && run.cancelRequested.None? && run.attempts < cfg.maxAttempts
    && match run.status
       case Accepted => run.nextAttempt <= now
       case Dispatched => run.leaseExpires.Some? && run.leaseExpires.value <= now
       case Working => run.leaseExpires.Some? && run.leaseExpires.value <= now
       case _ => false
  }

  /** By the time of the next attempt, then by the time of the run's creation. */
  predicate NotAfter(a: Run, b: Run) {
    if a.nextAttempt == b.nextAttempt then a.createdAt <= b.createdAt else a.nextAttempt < b.nextAttempt
  }

  /** The run is ready and free, and no other free run that is ready comes before it. */
  predicate First(cfg: Config, runs: map<RunId, Run>, r: RunId, skipped: set<RunId>, now: Time) {
    && r in runs && r !in skipped && Ready(cfg, runs[r], now)
    && forall q :: q in runs && q !in skipped && Ready(cfg, runs[q], now) ==> NotAfter(runs[r], runs[q])
  }

  lemma ReadyIsClaimable(cfg: Config, run: Run, now: Time)
    ensures Ready(cfg, run, now) <==> Claimable(cfg, run, now)
  {
    match run.status
    case Accepted =>
    case Dispatched =>
    case Working =>
    case _ =>
  }

  lemma FirstIsSelected(cfg: Config, db: Db, r: RunId, skipped: set<RunId>, now: Time)
    ensures SelectedForClaim(cfg, db, r, skipped, now) <==> First(cfg, db.runs, r, skipped, now)
  {
    forall q | q in db.runs ensures Ready(cfg, db.runs[q], now) <==> Claimable(cfg, db.runs[q], now) {
      ReadyIsClaimable(cfg, db.runs[q], now);
    }
    forall q | r in db.runs && q in db.runs
      ensures NotAfter(db.runs[r], db.runs[q]) <==> Precedes(db.runs[r], db.runs[q]) {}
  }

  /** The row as a claim leaves it. */
  function TakenRow(cfg: Config, run: Run, worker: WorkerId, now: Time): (row: Run) {
    Run(run.conversation, run.message, run.owner, run.session, run.key, Dispatched, run.answer, run.error,
        run.lastSequence, run.attempts + 1, Some(worker), Some(now + cfg.leaseSeconds * 1_000_000), run.nextAttempt,
        run.cancelRequested, run.expiresAt, run.createdAt, now, run.log)
  }

  lemma ClaimSets(cfg: Config, db: Db, r: RunId, worker: WorkerId, skipped: set<RunId>, now: Time, after: Db)
    requires SelectedForClaim(cfg, db, r, skipped, now) && after == Claim(cfg, db, r, worker, skipped, now)
    ensures after == db.(runs := db.runs[r := TakenRow(cfg, db.runs[r], worker, now)])
  {}

  /** A claim takes a run exactly when the run is ready, no other transaction has locked it and no ready run
      that is free comes before it; the run is then dispatched for one lease, and nothing else changes. */
  lemma TakenIff(cfg: Config, s: System, e: ExecId, worker: WorkerId, r: RunId, skipped: set<RunId>, now: Time,
                 after: System)
    requires e !in s.execs && after == Apply(cfg, s, ClaimNext(e, worker, r, skipped, now))
    ensures Took(s, after, r, ClaimNext(e, worker, r, skipped, now)) <==> First(cfg, s.db.runs, r, skipped, now)
    ensures Took(s, after, r, ClaimNext(e, worker, r, skipped, now)) ==>
              after == s.(db := s.db.(runs := s.db.runs[r := TakenRow(cfg, s.db.runs[r], worker, now)]),
                          execs := s.execs[e := Exec(r, worker, AtStart)])
    ensures !Took(s, after, r, ClaimNext(e, worker, r, skipped, now)) ==> after == s
  {
    FirstIsSelected(cfg, s.db, r, skipped, now);
    if SelectedForClaim(cfg, s.db, r, skipped, now) {
      ClaimSets(cfg, s.db, r, worker, skipped, now, after.db);
    }
  }

  /** Of two free runs that are ready, the later one is not taken. */
  lemma EarlierGoesFirst(cfg: Config, s: System, e: ExecId, worker: WorkerId, a: RunId, b: RunId,
                         skipped: set<RunId>, now: Time, after: System)
    requires a in s.db.runs && b in s.db.runs && a !in skipped && Ready(cfg, s.db.runs[a], now)
    requires || s.db.runs[a].nextAttempt < s.db.runs[b].nextAttempt
             || (s.db.runs[a].nextAttempt == s.db.runs[b].nextAttempt
                 && s.db.runs[a].createdAt < s.db.runs[b].createdAt)
    requires after == Apply(cfg, s, ClaimNext(e, worker, b, skipped, now))
    ensures after == s
  {
    if e !in s.execs { TakenIff(cfg, s, e, worker, b, skipped, now, after); }
  }

  /** A renewal by the lease's owner moves its end to one lease after the reading, while the run is
      dispatched or working; any other renewal changes nothing. */
  lemma RenewalIs(cfg: Config, s: System, r: RunId, worker: WorkerId, now: Time, after: System)
    requires after == Apply(cfg, s, RenewLease(r, worker, now))
    ensures if r in s.db.runs && s.db.runs[r].leaseOwner == Some(worker)
               && (s.db.runs[r].status == Dispatched || s.db.runs[r].status == Working)
            then after.db == s.db.(runs := s.db.runs[r := s.db.runs[r].(
                               leaseExpires := Some(now + cfg.leaseSeconds * 1_000_000), updatedAt := now)])
            else after == s
  {}

  // ---------------------------------------------------------------- the delay of a retry

  /** In microseconds: 1, 2, 4, 8 and 16 seconds, then always 30. */
  function DelayAfter(attempts: nat): (n: nat) {
    if attempts <= 1 then 1_000_000
    else if attempts == 2 then 2_000_000
    else if attempts == 3 then 4_000_000
    else if attempts == 4 then 8_000_000
    else if attempts == 5 then 16_000_000
    else 30_000_000
  }

  lemma {:induction false} LargePower(n: nat)
    requires n >= 5
    ensures Pow2(n) >= 32
  {
    if n > 5 {
      LargePower(n - 1);
    } else {
      assert Pow2(1) == 2 && Pow2(2) == 4 && Pow2(3) == 8 && Pow2(4) == 16;
    }
  }

  lemma DelayIs(attempts: nat)
    ensures RetryDelay(attempts) * SECOND == DelayAfter(attempts)
  {
    if attempts >= 6 {
      LargePower(attempts - 1);
    } else {
      assert Pow2(0) == 1 && Pow2(1) == 2 && Pow2(2) == 4 && Pow2(3) == 8 && Pow2(4) == 16;
    }
  }

  /** The row as a worker that gives the run back leaves it: queued after its delay, or failed after its
      last attempt. */
  function GivenBackRow(cfg: Config, run: Run, code: string, now: Time): (row: Run) {
    var free := run.(leaseOwner := None, leaseExpires := None, updatedAt := now, lastSequence := run.lastSequence + 1);
    if run.attempts < cfg.maxAttempts then
      free.(status := Status.Accepted, nextAttempt := now + DelayAfter(run.attempts),
            log := run.log + [Event(run.lastSequence + 1, StatusChanged("queued", "Reconnecting", None), now)])
    else
      free.(status := Failed, error := Some(code),
            log := run.log + [Event(run.lastSequence + 1, RunFailed(code, UNREACHABLE_COPY), now)])
  }

  lemma OneNumbered(first: nat, b: Body, now: Time)
    ensures NumberedEvents(first, [b], now) == [Event(first, b, now)]
  {}

  lemma ReleasedIsGivenBack(cfg: Config, run: Run, code: string, now: Time)
    ensures ReleasedRow(cfg, run, code, now) == GivenBackRow(cfg, run, code, now)
  {
    DelayIs(run.attempts);
    OneNumbered(run.lastSequence + 1, StatusChanged("queued", "Reconnecting", None), now);
    OneNumbered(run.lastSequence + 1, RunFailed(code, UNREACHABLE_COPY), now);
  }

  lemma RetryGivesBack(cfg: Config, s: System, r: RunId, worker: WorkerId, code: string, now: Time, after: System)
    requires after == Apply(cfg, s, Retry(r, worker, code, now))
    ensures r in s.db.runs && s.db.runs[r].leaseOwner == Some(worker) ==>
              after.db.runs == s.db.runs[r := GivenBackRow(cfg, s.db.runs[r], code, now)]
    ensures !(r in s.db.runs && s.db.runs[r].leaseOwner == Some(worker)) ==> after == s
    ensures after.execs == s.execs && after.used == s.used
  {
    if r in s.db.runs && s.db.runs[r].leaseOwner == Some(worker) {
      ReleasedIsGivenBack(cfg, s.db.runs[r], code, now);
      ReleaseSetsRow(cfg, s.db, r, worker, code, now);
    }
  }

  // ---------------------------------------------------------------- nobody claims it sooner

  /** The run is over, or without a lease and with its next attempt due then. */
  predicate WaitsRow(run: Run, due: Time) {
    || Terminal(run.status)
    || (run.status in {Status.Accepted, Working} && run.leaseOwner.None? && run.leaseExpires.None?
        && run.nextAttempt == due)
  }

  predicate Waits(s: System, r: RunId, due: Time) {
    r in s.used && (r in s.db.runs ==> WaitsRow(s.db.runs[r], due))
  }

  lemma FinalizeWaits(db: Db, q: RunId, status: Status, bodies: seq<Body>, marked: Option<(MessageId, SafetyAction)>,
                      answer: Option<Text>, error: Option<string>, now: Time, after: Db, r: RunId, due: Time)
    requires after == FinalizeRun(db, q, status, bodies, marked, answer, error, now) && Terminal(status)
    requires r in db.runs && WaitsRow(db.runs[r], due)
    ensures r in after.runs && WaitsRow(after.runs[r], due)
  {}

  lemma MarkWaits(db: Db, q: RunId, now: Time, after: Db, r: RunId, due: Time)
    requires after == MarkCancelled(db, q, now) && r in db.runs && WaitsRow(db.runs[r], due)
    ensures r in after.runs && WaitsRow(after.runs[r], due)
  {}

  lemma AskWaits(db: Db, q: RunId, now: Time, after: Db, r: RunId, due: Time)
    requires after == RequestCancellation(db, q, now) && r in db.runs && WaitsRow(db.runs[r], due)
    ensures r in after.runs && WaitsRow(after.runs[r], due)
  {}

  lemma SetWorkingWaits(db: Db, q: RunId, now: Time, after: Db, r: RunId, due: Time)
    requires after == SetWorking(db, q, now) && r in db.runs && WaitsRow(db.runs[r], due)
    ensures r in after.runs && WaitsRow(after.runs[r], due)
  {}

  lemma EventWaits(db: Db, q: RunId, body: Body, now: Time, after: Db, r: RunId, due: Time)
    requires after == AddEvent(db, q, body, now) && r in db.runs && WaitsRow(db.runs[r], due)
    ensures r in after.runs && WaitsRow(after.runs[r], due)
  {}

  lemma ConcludeWaits(s: System, step: Step, after: System, r: RunId, due: Time)
    requires (step.Conclude? || step.ConcludeFailed? || step.CancelRefused?) && after == ExecStep(s, step)
    requires r in s.db.runs && WaitsRow(s.db.runs[r], due)
    ensures r in after.db.runs && WaitsRow(after.db.runs[r], due)
  {
    if step.e in s.execs {
      var q := s.execs[step.e].run;
      if step.CancelRefused? {
        MarkWaits(s.db, q, step.now, MarkCancelled(s.db, q, step.now), r, due);
      } else if step.ConcludeFailed? {
        FinalizeWaits(s.db, q, Failed, [RunFailed(step.code, UNREACHABLE_COPY)], None, None, Some(step.code), step.now,
                      FailRun(s.db, q, step.code, step.now), r, due);
      } else if q in s.db.runs {
        var t := step.turn;
        FinalizeWaits(s.db, q, TurnStatus(t), TurnEvents(t), Some((s.db.runs[q].message, TurnAction(t))),
                      TurnAnswer(t), None, step.now, ConcludeRun(s.db, q, t, step.now), r, due);
      }
    }
  }

  lemma WorkWaits(s: System, step: Step, after: System, r: RunId, due: Time)
    requires step.Begin? || step.ChargeRun? || step.AnnounceThinking? || step.Resume? || step.Emit?
    requires after == ExecStep(s, step) && r in s.db.runs && WaitsRow(s.db.runs[r], due)
    ensures r in after.db.runs && WaitsRow(after.db.runs[r], due)
  {
    if after.db != s.db {
      var q := s.execs[step.e].run;
      if step.Begin? {
        SetWorkingWaits(s.db, q, step.now, after.db, r, due);
      } else if step.Emit? {
        EventWaits(s.db, q, step.body, step.now, after.db, r, due);
      } else if step.AnnounceThinking? {
        EventWaits(s.db, q, StatusChanged("thinking", "Thinking", None), step.now, after.db, r, due);
      }
    }
  }

  lemma LeaseWaits(cfg: Config, s: System, step: Step, after: System, r: RunId, due: Time)
    requires step.RenewLease? || step.Retry? || step.CancelPolled? || step.RequestCancel?
    requires after == Apply(cfg, s, step) && r in s.db.runs && WaitsRow(s.db.runs[r], due)
    requires LeaseOk(cfg, s.db.runs[r])
    ensures r in after.db.runs && WaitsRow(after.db.runs[r], due)
  {
    if step.Retry? {
      RetryGivesBack(cfg, s, step.r, step.worker, step.code, step.now, after);
    } else if step.RenewLease? {
      RenewalIs(cfg, s, step.r, step.worker, step.now, after);
    } else if step.RequestCancel? {
      AskWaits(s.db, step.r, step.now, after.db, r, due);
    } else if after != s {
      MarkWaits(s.db, step.r, step.now, after.db, r, due);
    }
  }

  lemma RowWaits(cfg: Config, s: System, step: Step, after: System, r: RunId, due: Time)
    requires Sound(cfg, s) && !step.ClaimNext? && after == Apply(cfg, s, step)
    requires r in s.db.runs && WaitsRow(s.db.runs[r], due) && r in after.db.runs
    ensures WaitsRow(after.db.runs[r], due)
  {
    if step.Conclude? || step.ConcludeFailed? || step.CancelRefused? {
      ApplyExec(cfg, s, step);
      ConcludeWaits(s, step, after, r, due);
    } else if IsExecStep(step) {
      ApplyExec(cfg, s, step);
      WorkWaits(s, step, after, r, due);
    } else if step.RenewLease? || step.Retry? || step.CancelPolled? || step.RequestCancel? {
      OkAt(cfg, s.db, r);
      LeaseWaits(cfg, s, step, after, r, due);
    } else if step.Create? {
      CreateStep(cfg, s, step, after);
    } else if step.SweepRuns? {
      SweepStep(cfg, s, step, after, r);
    } else {
      RestKeepsRuns(cfg, s, step, after);
    }
  }

  lemma ClaimWaits(cfg: Config, s: System, step: Step, after: System, r: RunId, due: Time)
    requires step.ClaimNext? && after == Apply(cfg, s, step) && Waits(s, r, due)
    ensures if Took(s, after, r, step) then due <= step.now else Waits(after, r, due)
  {
    if step.e !in s.execs {
      TakenIff(cfg, s, step.e, step.worker, step.r, step.skipped, step.now, after);
    }
  }

  lemma WaitsStep(cfg: Config, s: System, step: Step, after: System, r: RunId, due: Time)
    requires Sound(cfg, s) && after == Apply(cfg, s, step) && Waits(s, r, due)
    ensures if Took(s, after, r, step) then due <= step.now else Waits(after, r, due)
  {
    if step.ClaimNext? {
      ClaimWaits(cfg, s, step, after, r, due);
    } else {
      UsedOnlyGrows(cfg, s, step, after);
      if r in after.db.runs {
        if r in s.db.runs {
          RowWaits(cfg, s, step, after, r, due);
        } else {
          NewRunIsUnstarted(cfg, s, step, after, r);
        }
      }
    }
  }

  /** The step after the first `i` of `more` is a claim that takes the run. */
  ghost predicate TakenAt(cfg: Config, s: System, more: seq<Step>, i: nat, r: RunId)
    requires i < |more|
  {
    var before := Protocol.Run(cfg, s, more[..i]);
    Took(before, Apply(cfg, before, more[i]), r, more[i])
  }

  lemma {:induction false} WaitsUntilTaken(cfg: Config, s: System, more: seq<Step>, i: nat, later: System, r: RunId,
                                           due: Time)
    requires Sound(cfg, s) && Waits(s, r, due) && i <= |more| && later == Protocol.Run(cfg, s, more[..i])
    requires forall j :: 0 <= j < i ==> !TakenAt(cfg, s, more, j, r)
    ensures Sound(cfg, later) && Waits(later, r, due)
  {
    if i > 0 {
      var before := Protocol.Run(cfg, s, more[..i - 1]);
      WaitsUntilTaken(cfg, s, more, i - 1, before, r, due);
      assert more[..i][..i - 1] == more[..i - 1] && !TakenAt(cfg, s, more, i - 1, r);
      SoundStep(cfg, before, more[i - 1], later);
      WaitsStep(cfg, before, more[i - 1], later, r, due);
    }
  }

  /** After any history in which a worker gives a run back, whatever follows: the first claim that takes the
      run again reads no time before its delay is over, which after k attempts is min(30, 2^(k-1)) seconds. */
  lemma RetriedRunWaits(cfg: Config, accounts: map<UserId, Account>, steps: seq<Step>, s: System, r: RunId,
                        worker: WorkerId, code: string, t: Time, given: System, more: seq<Step>, i: nat)
    requires s == Protocol.Run(cfg, Fresh(accounts), steps) && given == Apply(cfg, s, Retry(r, worker, code, t))
    requires r in s.db.runs && s.db.runs[r].leaseOwner == Some(worker) && s.db.runs[r].attempts < cfg.maxAttempts
    requires i < |more| && more[i].ClaimNext? && TakenAt(cfg, given, more, i, r)
    requires forall j :: 0 <= j < i ==> !TakenAt(cfg, given, more, j, r)
    ensures t + DelayAfter(s.db.runs[r].attempts) <= more[i].now
  {
    var due := t + DelayAfter(s.db.runs[r].attempts);
    SoundAlways(cfg, accounts, steps, s);
    RetryGivesBack(cfg, s, r, worker, code, t, given);
    SoundStep(cfg, s, Retry(r, worker, code, t), given);
    var before := Protocol.Run(cfg, given, more[..i]);
    WaitsUntilTaken(cfg, given, more, i, before, r, due);
    WaitsStep(cfg, before, more[i], Apply(cfg, before, more[i]), r, due);
  }

  /** Given back, the run can be taken from that time on: by any claim that finds it free and unasked, with
      no free run that is ready before it. */
  lemma RetriedRunCanBeTaken(cfg: Config, s: System, r: RunId, worker: WorkerId, code: string, t: Time,
                             given: System, e: ExecId, next: WorkerId, skipped: set<RunId>, now: Time, after: System)
    requires given == Apply(cfg, s, Retry(r, worker, code, t)) && e !in s.execs
    requires r in s.db.runs && s.db.runs[r].leaseOwner == Some(worker) && s.db.runs[r].attempts < cfg.maxAttempts
    requires after == Apply(cfg, given, ClaimNext(e, next, r, skipped, now))
    ensures r in given.db.runs
    ensures Took(given, after, r, ClaimNext(e, next, r, skipped, now)) <==>
            && t + DelayAfter(s.db.runs[r].attempts) <= now
            && r !in skipped && s.db.runs[r].cancelRequested.None?
            && (forall q :: q in given.db.runs && q !in skipped && Ready(cfg, given.db.runs[q], now) ==>
                            NotAfter(given.db.runs[r], given.db.runs[q]))
  {
    RetryGivesBack(cfg, s, r, worker, code, t, given);
    TakenIff(cfg, given, e, next, r, skipped, now, after);
  }

  // ---------------------------------------------------------------- a new run

  lemma NewRunIs(cfg: Config, req: Request, now: Time, row: Run)
    requires row == NewRun(cfg, req, now)
    ensures row.log == [Event(1, RunAccepted, now)] && row.expiresAt == now + cfg.retentionDays * 86_400_000_000
    ensures row == Run(req.conversation, req.message, req.owner, req.session, req.key, Status.Accepted, None, None, 1,
                       0, None, None, now, None, row.expiresAt, now, now, row.log)
  {
    OneNumbered(1, RunAccepted, now);
    assert [] + NumberedEvents(1, [RunAccepted], now) == NumberedEvents(1, [RunAccepted], now);
  }

  /** A new run waits for nobody's delay: it is accepted, unclaimed and due at once, and kept for the
      retention time. */
  lemma CreatedRunIs(cfg: Config, s: System, r: RunId, req: Request, now: Time, after: System)
    requires after == Apply(cfg, s, Create(r, req, now)) && after != s
    ensures after.db.runs == s.db.runs[r := Run(
              req.conversation, req.message, req.owner, req.session, req.key, Status.Accepted, None, None, 1, 0, None,
              None, now, None, now + cfg.retentionDays * 86_400_000_000, now, now, [Event(1, RunAccepted, now)])]
  {
    CreateStep(cfg, s, Create(r, req, now), after);
    NewRunIs(cfg, req, now, NewRun(cfg, req, now));
  }
}
