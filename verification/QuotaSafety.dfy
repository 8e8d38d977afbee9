/** Conservation of quota units and the limits that follow from it. */
module QuotaSafety {
  import opened Records
  import opened Transactions
  import opened Protocol
  import opened RunInvariants
  import opened RunTransitions
  import opened ChargeSafety

  /** Units a counter holds beyond the live ledger rows that name it. */
  function Surplus(db: Db, k: CounterKey): (n: int) {
    Count(db.counters, k) - |LiveUnder(db.ledger, k)|
  }

  ghost predicate Conserved(db: Db) {
    forall k :: Surplus(db, k) >= 0
  }

  ghost predicate CountersBounded(cfg: Config, db: Db) {
    forall k :: Count(db.counters, k) <= LimitOf(cfg, k)
  }

  ghost predicate RowsDated(db: Db) {
    forall r :: r in db.ledger ==> db.ledger[r].day == Day(db.ledger[r].reservedAt) && db.ledger[r].user in db.accounts
  }

  ghost predicate AllowancesKept(cfg: Config, db: Db) {
    forall u, day :: u in db.accounts ==> |LiveOf(db.ledger, u, day)| <= DailyLimit(cfg, db, u, day)
  }

  ghost predicate ConcurrencyKept(cfg: Config, db: Db) {
    forall u :: |ActiveRuns(db.runs, u)| <= cfg.maxConcurrent
  }

  ghost predicate QuotaOk(cfg: Config, db: Db) {
    Conserved(db) && CountersBounded(cfg, db) && RowsDated(db) && AllowancesKept(cfg, db) && ConcurrencyKept(cfg, db)
  }

  // ---------------------------------------------------------------- counting

  lemma SubsetCount<T>(a: set<T>, b: set<T>)
    requires a <= b
    ensures |a| <= |b|
  {
    assert b == a + (b - a);
  }

  lemma IncrementCounts(counters: map<CounterKey, nat>, keys: set<CounterKey>, k: CounterKey)
    ensures Count(Increment(counters, keys), k) == Count(counters, k) + (if k in keys then 1 else 0)
  {}

  lemma ReserveCounts(ledger: map<RunId, LedgerEntry>, r: RunId, e: LedgerEntry, k: CounterKey)
    requires r !in ledger && Live(e)
    ensures |LiveUnder(ledger[r := e], k)| == |LiveUnder(ledger, k)| + (if k in KeysOf(e) then 1 else 0)
  {
    var before, after := LiveUnder(ledger, k), LiveUnder(ledger[r := e], k);
    assert r !in before;
    forall q ensures q in after <==> q in before || (q == r && k in KeysOf(e)) {}
    assert after == before + (if k in KeysOf(e) then {r} else {});
  }

  lemma ReserveCountsForUser(ledger: map<RunId, LedgerEntry>, r: RunId, e: LedgerEntry, u: UserId, day: int)
    requires r !in ledger && Live(e)
    ensures |LiveOf(ledger[r := e], u, day)| ==
            |LiveOf(ledger, u, day)| + (if e.user == u && e.day == day then 1 else 0)
  {
    assert LiveOf(ledger[r := e], u, day) == LiveOf(ledger, u, day) + (if e.user == u && e.day == day then {r} else {});
  }

  lemma ReleaseCounts(ledger: map<RunId, LedgerEntry>, r: RunId, k: CounterKey)
    requires r in ledger && ledger[r].status == Reserved
    ensures |LiveUnder(SetLedger(ledger, r, Released), k)| ==
            |LiveUnder(ledger, k)| - (if k in KeysOf(ledger[r]) then 1 else 0)
  {
    var before, after := LiveUnder(ledger, k), LiveUnder(SetLedger(ledger, r, Released), k);
    assert r !in after;
    assert forall q :: q in after ==> q in before;
    assert forall q :: q in before && q != r ==> q in after;
    assert r in before <==> k in KeysOf(ledger[r]);
    assert after == before - {r};
  }

  lemma ChargeCounts(ledger: map<RunId, LedgerEntry>, r: RunId, k: CounterKey)
    ensures LiveUnder(SetLedger(ledger, r, Charged), k) == LiveUnder(ledger, k)
  {}

  lemma StatusCountsForUser(ledger: map<RunId, LedgerEntry>, r: RunId, status: LedgerStatus, u: UserId, day: int)
    ensures |LiveOf(SetLedger(ledger, r, status), u, day)| <= |LiveOf(ledger, u, day)|
  {
    SubsetCount(LiveOf(SetLedger(ledger, r, status), u, day), LiveOf(ledger, u, day));
  }

  lemma DayIsMonotone(a: Time, b: Time)
    requires a <= b
    ensures Day(a) <= Day(b)
  {}

  /** No clamp: a live row's counters exist and are at least one. */
  lemma LiveRowsAreCounted(db: Db, r: RunId, k: CounterKey)
    requires Conserved(db) && r in db.ledger && Live(db.ledger[r]) && k in KeysOf(db.ledger[r])
    ensures k in db.counters && db.counters[k] >= 1
  {
    assert Surplus(db, k) >= 0;
    assert r in LiveUnder(db.ledger, k);
    assert |LiveUnder(db.ledger, k)| == |LiveUnder(db.ledger, k) - {r}| + 1;
  }

  /** A security purge deletes no counter while a ledger row of its day remains. */
  lemma PurgeKeepsNamedCounters(db: Db, now: Time, r: RunId, k: CounterKey)
    requires RowsDated(db) && r in PurgeSecurity(db, now).ledger && k in KeysOf(db.ledger[r]) && k in db.counters
    ensures k in PurgeSecurity(db, now).counters && PurgeSecurity(db, now).counters[k] == db.counters[k]
  {
    DayIsMonotone(now - NINETY_DAYS, db.ledger[r].reservedAt);
  }

  // ---------------------------------------------------------------- the conservation law

  predicate GivesUp(cfg: Config, s: System, step: Step) {
    && step.Retry? && HoldsLease(s.db, step.r, step.worker)
    && s.db.runs[step.r].attempts >= cfg.maxAttempts
    && step.r in s.db.ledger && s.db.ledger[step.r].status == Reserved
  }

  /** The live units of one counter that a security purge deletes for their age. */
  function PurgedUnits(db: Db, now: Time, k: CounterKey): (units: set<RunId>) {
    set r | r in LiveUnder(db.ledger, k) && db.ledger[r].reservedAt < now - NINETY_DAYS
  }

  /** What a security purge clears with the counters of days before the cutoff's. */
  function Cleared(db: Db, now: Time, k: CounterKey): (n: nat) {
    if DayOf(k) < Day(now - NINETY_DAYS) then Count(db.counters, k) else 0
  }

  /** Units that leave the ledger in a step without leaving the counter: the unit of a run given up and
      those a purge deletes, less what the purge clears from the counter. */
  function Leak(cfg: Config, s: System, step: Step, k: CounterKey): (n: int) {
    if GivesUp(cfg, s, step) then (if k in KeysOf(s.db.ledger[step.r]) then 1 else 0)
    else if step.SweepSecurity? then |PurgedUnits(s.db, step.now, k)| - Cleared(s.db, step.now, k)
    else 0
  }

  lemma ReleaseReservedIsEven(db: Db, r: RunId, k: CounterKey)
    requires Conserved(db)
    ensures Surplus(ReleaseReserved(db, r), k) == Surplus(db, k)
    ensures Count(ReleaseReserved(db, r).counters, k) <= Count(db.counters, k)
  {
    if r in db.ledger && db.ledger[r].status == Reserved {
      ReleaseCounts(db.ledger, r, k);
      if k in KeysOf(db.ledger[r]) { LiveRowsAreCounted(db, r, k); }
    }
  }

  lemma RequestIsEven(db: Db, r: RunId, now: Time, k: CounterKey)
    requires Conserved(db)
    ensures Surplus(RequestCancellation(db, r, now), k) == Surplus(db, k)
    ensures Count(RequestCancellation(db, r, now).counters, k) <= Count(db.counters, k)
  {
    ReleaseReservedIsEven(db, r, k);
  }

  lemma PurgeSurplus(db: Db, now: Time, k: CounterKey)
    requires RowsDated(db)
    ensures Surplus(PurgeSecurity(db, now), k) == Surplus(db, k) + |PurgedUnits(db, now, k)| - Cleared(db, now, k)
  {
    PurgedCount(db, now, k);
    PurgedRows(db, now, k);
    SplitCount(LiveUnder(db.ledger, k), PurgedUnits(db, now, k));
  }

  lemma PurgedCount(db: Db, now: Time, k: CounterKey)
    ensures Count(PurgeSecurity(db, now).counters, k) == Count(db.counters, k) - Cleared(db, now, k)
  {}

  lemma PurgedRows(db: Db, now: Time, k: CounterKey)
    ensures LiveUnder(PurgeSecurity(db, now).ledger, k) == LiveUnder(db.ledger, k) - PurgedUnits(db, now, k)
  {}

  lemma SplitCount<T>(all: set<T>, part: set<T>)
    requires part <= all
    ensures |all - part| == |all| - |part|
  {
    assert all == (all - part) + part;
  }

  lemma ReleaseKeepsQuotaTables(cfg: Config, db: Db, r: RunId, worker: WorkerId, code: string, now: Time)
    ensures var after := ReleaseForRetry(cfg, db, r, worker, code, now);
            && after.counters == db.counters && after.accounts == db.accounts && after.grants == db.grants
            && after.ledger == if HoldsLease(db, r, worker) && db.runs[r].attempts >= cfg.maxAttempts
                               then SetLedger(db.ledger, r, Released) else db.ledger
  {}

  /** No counter, no account and no grant differs. */
  predicate SameLimits(db: Db, after: Db) {
    after.counters == db.counters && after.accounts == db.accounts && after.grants == db.grants
  }

  lemma WorkKeepsLimits(s: System, step: Step, after: System)
    requires IsExecStep(step) && !step.Conclude? && !step.ConcludeFailed? && !step.CancelRefused?
             && after == ExecStep(s, step)
    ensures SameLimits(s.db, after.db)
  {}

  lemma EndKeepsLimits(s: System, step: Step, after: System)
    requires (step.Conclude? || step.ConcludeFailed? || step.CancelRefused?) && after == ExecStep(s, step)
    ensures SameLimits(s.db, after.db)
  {}

  lemma DispatchKeepsLimits(cfg: Config, s: System, step: Step, after: System)
    requires step.ClaimNext? || step.RenewLease? || step.CancelPolled? || step.SweepRuns? || step.Recover?
    requires after == Apply(cfg, s, step)
    ensures SameLimits(s.db, after.db)
  {}

  lemma GiveUpKeepsLimits(cfg: Config, s: System, step: Step, after: System)
    requires step.Retry? && after == Apply(cfg, s, step)
    ensures SameLimits(s.db, after.db)
  {
    ReleaseKeepsQuotaTables(cfg, s.db, step.r, step.worker, step.code, step.now);
  }

  lemma OnlyQuotaStepsCount(cfg: Config, s: System, step: Step, after: System)
    requires !step.Create? && !step.SweepSecurity? && !step.RequestCancel? && !step.Grant? && !step.Activate?
    requires after == Apply(cfg, s, step)
    ensures SameLimits(s.db, after.db)
  {
    if step.Conclude? || step.ConcludeFailed? || step.CancelRefused? {
      ApplyExec(cfg, s, step);
      EndKeepsLimits(s, step, after);
    } else if IsExecStep(step) {
      ApplyExec(cfg, s, step);
      WorkKeepsLimits(s, step, after);
    } else if step.Edit? || step.Upsert? || step.Delete? {
      WritingStep(cfg, s, step, after);
    } else if step.Retry? {
      GiveUpKeepsLimits(cfg, s, step, after);
    } else {
      DispatchKeepsLimits(cfg, s, step, after);
    }
  }

  lemma AdministrationKeepsUnits(cfg: Config, s: System, step: Step, after: System)
    requires (step.Grant? || step.Activate?) && after == Apply(cfg, s, step)
    ensures after.db.counters == s.db.counters && after.db.ledger == s.db.ledger
  {}

  lemma CreateSurplus(cfg: Config, s: System, step: Step, after: System, k: CounterKey)
    requires step.Create? && after == Apply(cfg, s, step)
    ensures Surplus(after.db, k) == Surplus(s.db, k)
  {
    CreateLedger(cfg, s, step, after);
    if after != s && step.req.owner.Some? {
      ReservationIsEven(s.db, after.db, step.r, Reservation(step.req, step.now), k);
    }
  }

  lemma ReservationIsEven(db: Db, after: Db, r: RunId, e: LedgerEntry, k: CounterKey)
    requires r !in db.ledger && Live(e) && after.ledger == db.ledger[r := e]
             && after.counters == Increment(db.counters, KeysOf(e))
    ensures Surplus(after, k) == Surplus(db, k)
  {
    ReserveCounts(db.ledger, r, e, k);
    IncrementCounts(db.counters, KeysOf(e), k);
  }

  lemma RetrySurplus(cfg: Config, s: System, step: Step, after: System, k: CounterKey)
    requires step.Retry? && after == Apply(cfg, s, step)
    ensures Surplus(after.db, k) == Surplus(s.db, k) + Leak(cfg, s, step, k)
  {
    ReleaseKeepsQuotaTables(cfg, s.db, step.r, step.worker, step.code, step.now);
    if GivesUp(cfg, s, step) {
      ReleaseCounts(s.db.ledger, step.r, k);
    } else if HoldsLease(s.db, step.r, step.worker) && s.db.runs[step.r].attempts >= cfg.maxAttempts {
      ReleasedBeforeIsEven(s.db.ledger, step.r, k);
    }
  }

  lemma ReleasedBeforeIsEven(ledger: map<RunId, LedgerEntry>, r: RunId, k: CounterKey)
    requires r in ledger ==> ledger[r].status != Reserved
    ensures LiveUnder(SetLedger(ledger, r, Released), k) == LiveUnder(ledger, k)
  {}

  lemma SweepSurplus(cfg: Config, s: System, step: Step, after: System, k: CounterKey)
    requires step.SweepSecurity? && RowsDated(s.db) && after == Apply(cfg, s, step)
    ensures Surplus(after.db, k) == Surplus(s.db, k) + Leak(cfg, s, step, k)
  {
    PurgeSurplus(s.db, step.now, k);
  }

  lemma CancelSurplus(cfg: Config, s: System, step: Step, after: System, k: CounterKey)
    requires step.RequestCancel? && Conserved(s.db) && after == Apply(cfg, s, step)
    ensures Surplus(after.db, k) == Surplus(s.db, k)
  {
    RequestIsEven(s.db, step.r, step.now, k);
  }

  lemma OtherSurplus(cfg: Config, s: System, step: Step, after: System, k: CounterKey)
    requires !step.Create? && !step.SweepSecurity? && !step.RequestCancel? && !step.Retry? && !step.Grant?
             && !step.Activate?
    requires after == Apply(cfg, s, step)
    ensures Surplus(after.db, k) == Surplus(s.db, k)
  {
    OnlyQuotaStepsCount(cfg, s, step, after);
    StepLedger(cfg, s, step, after);
    if ChargesAt(s, step) { ChargeCounts(s.db.ledger, s.execs[step.e].run, k); }
  }

  /** Every step keeps counter minus live units, except for the units it leaks. */
  lemma StepSurplus(cfg: Config, s: System, step: Step, after: System, k: CounterKey)
    requires Conserved(s.db) && RowsDated(s.db) && after == Apply(cfg, s, step)
    ensures Surplus(after.db, k) == Surplus(s.db, k) + Leak(cfg, s, step, k)
  {
    if step.Create? {
      CreateSurplus(cfg, s, step, after, k);
    } else if step.SweepSecurity? {
      SweepSurplus(cfg, s, step, after, k);
    } else if step.RequestCancel? {
      CancelSurplus(cfg, s, step, after, k);
    } else if step.Retry? {
      RetrySurplus(cfg, s, step, after, k);
    } else if step.Grant? || step.Activate? {
      AdministrationKeepsUnits(cfg, s, step, after);
    } else {
      OtherSurplus(cfg, s, step, after, k);
    }
  }

  /** No live unit names a counter that a purge clears, so a leak never makes a surplus negative. */
  lemma PurgeClearsDeadCounters(db: Db, now: Time, k: CounterKey)
    requires RowsDated(db) && DayOf(k) < Day(now - NINETY_DAYS)
    ensures PurgedUnits(db, now, k) == LiveUnder(db.ledger, k)
  {
    forall r | r in LiveUnder(db.ledger, k) ensures r in PurgedUnits(db, now, k) {
      if db.ledger[r].reservedAt >= now - NINETY_DAYS { DayIsMonotone(now - NINETY_DAYS, db.ledger[r].reservedAt); }
    }
  }

  lemma LeakIsCovered(cfg: Config, s: System, step: Step, k: CounterKey)
    requires Conserved(s.db) && RowsDated(s.db)
    ensures Surplus(s.db, k) + Leak(cfg, s, step, k) >= 0
  {
    assert Surplus(s.db, k) >= 0;
    if step.SweepSecurity? && DayOf(k) < Day(step.now - NINETY_DAYS) { PurgeClearsDeadCounters(s.db, step.now, k); }
  }

  // ---------------------------------------------------------------- preservation

  lemma ConservedKept(cfg: Config, s: System, step: Step, after: System)
    requires Conserved(s.db) && RowsDated(s.db) && after == Apply(cfg, s, step)
    ensures Conserved(after.db)
  {
    forall k ensures Surplus(after.db, k) >= 0 {
      StepSurplus(cfg, s, step, after, k);
      LeakIsCovered(cfg, s, step, k);
    }
  }

  lemma AdmittedHasRoom(cfg: Config, db: Db, u: UserId, device: Option<Digest>, ip: Option<Digest>, now: Time,
                        k: CounterKey)
    requires Assess(cfg, db, u, device, ip, now) == Admit
    requires k in SignalKeys(device, ip, Day(now)) + {ServiceKey(Day(now))}
    ensures Count(db.counters, k) < LimitOf(cfg, k)
  {}

  lemma AdmittedUserHasRoom(cfg: Config, db: Db, u: UserId, device: Option<Digest>, ip: Option<Digest>, now: Time)
    requires Assess(cfg, db, u, device, ip, now) == Admit
    ensures u in db.accounts && |LiveOf(db.ledger, u, Day(now))| < DailyLimit(cfg, db, u, Day(now))
    ensures |ActiveRuns(db.runs, u)| < cfg.maxConcurrent
  {}

  lemma CreateKeepsBounds(cfg: Config, s: System, step: Step, after: System)
    requires step.Create? && CountersBounded(cfg, s.db) && after == Apply(cfg, s, step)
    ensures CountersBounded(cfg, after.db)
  {
    CreateLedger(cfg, s, step, after);
    if after != s && step.req.owner.Some? {
      var e := Reservation(step.req, step.now);
      forall k ensures Count(after.db.counters, k) <= LimitOf(cfg, k) {
        IncrementCounts(s.db.counters, KeysOf(e), k);
        if k in KeysOf(e) { AdmittedHasRoom(cfg, s.db, e.user, e.device, e.ip, step.now, k); }
      }
    }
  }

  lemma PurgeKeepsBounds(cfg: Config, db: Db, now: Time)
    requires CountersBounded(cfg, db)
    ensures CountersBounded(cfg, PurgeSecurity(db, now))
  {
    forall k ensures Count(PurgeSecurity(db, now).counters, k) <= LimitOf(cfg, k) {
      PurgedCount(db, now, k);
    }
  }

  lemma RequestKeepsBounds(cfg: Config, db: Db, r: RunId, now: Time)
    requires Conserved(db) && CountersBounded(cfg, db)
    ensures CountersBounded(cfg, RequestCancellation(db, r, now))
  {
    forall k ensures Count(RequestCancellation(db, r, now).counters, k) <= LimitOf(cfg, k) {
      RequestIsEven(db, r, now, k);
    }
  }

  lemma BoundsKept(cfg: Config, s: System, step: Step, after: System)
    requires Conserved(s.db) && CountersBounded(cfg, s.db) && after == Apply(cfg, s, step)
    ensures CountersBounded(cfg, after.db)
  {
    if step.Create? {
      CreateKeepsBounds(cfg, s, step, after);
    } else if step.RequestCancel? {
      RequestKeepsBounds(cfg, s.db, step.r, step.now);
    } else if step.SweepSecurity? {
      PurgeKeepsBounds(cfg, s.db, step.now);
    } else {
      if step.Grant? || step.Activate? {
        AdministrationKeepsUnits(cfg, s, step, after);
      } else {
        OnlyQuotaStepsCount(cfg, s, step, after);
      }
      assert after.db.counters == s.db.counters;
    }
  }

  lemma RequestKeepsLimits(db: Db, r: RunId, now: Time)
    ensures RequestCancellation(db, r, now).accounts == db.accounts
            && RequestCancellation(db, r, now).grants == db.grants
  {}

  lemma OnlyAdministrationChangesLimits(cfg: Config, s: System, step: Step, after: System)
    requires !step.Create? && !step.SweepSecurity? && !step.Grant? && !step.Activate? && after == Apply(cfg, s, step)
    ensures after.db.accounts == s.db.accounts && after.db.grants == s.db.grants
  {
    if step.RequestCancel? {
      RequestKeepsLimits(s.db, step.r, step.now);
    } else {
      OnlyQuotaStepsCount(cfg, s, step, after);
    }
  }

  lemma AddedRowIsDated(db: Db, after: Db, r: RunId, e: LedgerEntry)
    requires RowsDated(db) && after.accounts == db.accounts && after.ledger == db.ledger[r := e]
    requires e.day == Day(e.reservedAt) && e.user in db.accounts
    ensures RowsDated(after)
  {}

  lemma CreateDatesRows(cfg: Config, s: System, step: Step, after: System)
    requires step.Create? && RowsDated(s.db) && after == Apply(cfg, s, step)
    ensures RowsDated(after.db)
  {
    CreateLedger(cfg, s, step, after);
    if after != s && step.req.owner.Some? {
      AdmittedUserHasRoom(cfg, s.db, step.req.owner.value, step.req.device, step.req.ip, step.now);
      AddedRowIsDated(s.db, after.db, step.r, Reservation(step.req, step.now));
    }
  }

  lemma MoveKeepsDates(s: System, step: Step, after: System)
    requires RowsDated(s.db) && LedgerMove(s, step, after) && s.db.accounts.Keys <= after.db.accounts.Keys
    ensures RowsDated(after.db)
  {}

  lemma AdministrationKeepsAccounts(cfg: Config, s: System, step: Step, after: System)
    requires (step.Grant? || step.Activate?) && after == Apply(cfg, s, step)
    ensures s.db.accounts.Keys <= after.db.accounts.Keys
  {}

  lemma PurgeKeepsDates(db: Db, now: Time)
    requires RowsDated(db)
    ensures RowsDated(PurgeSecurity(db, now))
  {}

  lemma RowsKept(cfg: Config, s: System, step: Step, after: System)
    requires RowsDated(s.db) && after == Apply(cfg, s, step)
    ensures RowsDated(after.db)
  {
    if step.Create? {
      CreateDatesRows(cfg, s, step, after);
    } else if step.SweepSecurity? {
      PurgeKeepsDates(s.db, step.now);
    } else {
      StepLedger(cfg, s, step, after);
      if step.Grant? || step.Activate? {
        AdministrationKeepsAccounts(cfg, s, step, after);
      } else {
        OnlyAdministrationChangesLimits(cfg, s, step, after);
      }
      MoveKeepsDates(s, step, after);
    }
  }

  lemma PurgedDaysAreEmpty(db: Db, now: Time, u: UserId, day: int)
    requires RowsDated(db) && day < Day(now - NINETY_DAYS)
    ensures LiveOf(PurgeSecurity(db, now).ledger, u, day) == {}
  {
    var after := PurgeSecurity(db, now);
    forall r | r in after.ledger ensures after.ledger[r].day != day {
      DayIsMonotone(now - NINETY_DAYS, after.ledger[r].reservedAt);
    }
  }

  lemma PurgeKeepsAllowances(cfg: Config, db: Db, now: Time)
    requires RowsDated(db) && AllowancesKept(cfg, db)
    ensures AllowancesKept(cfg, PurgeSecurity(db, now))
  {
    var after := PurgeSecurity(db, now);
    forall u, day | u in after.accounts ensures |LiveOf(after.ledger, u, day)| <= DailyLimit(cfg, after, u, day) {
      if day < Day(now - NINETY_DAYS) {
        PurgedDaysAreEmpty(db, now, u, day);
      } else {
        SubsetCount(LiveOf(after.ledger, u, day), LiveOf(db.ledger, u, day));
        assert DailyLimit(cfg, after, u, day) == DailyLimit(cfg, db, u, day);
      }
    }
  }

  lemma ReserveKeepsAllowances(cfg: Config, db: Db, after: Db, r: RunId, e: LedgerEntry)
    requires AllowancesKept(cfg, db) && after.accounts == db.accounts && after.grants == db.grants
    requires r !in db.ledger && Live(e) && after.ledger == db.ledger[r := e]
    requires e.user in db.accounts && |LiveOf(db.ledger, e.user, e.day)| < DailyLimit(cfg, db, e.user, e.day)
    ensures AllowancesKept(cfg, after)
  {
    forall u, day | u in after.accounts ensures |LiveOf(after.ledger, u, day)| <= DailyLimit(cfg, after, u, day) {
      ReserveCountsForUser(db.ledger, r, e, u, day);
      assert DailyLimit(cfg, after, u, day) == DailyLimit(cfg, db, u, day);
    }
  }

  lemma CreateKeepsAllowances(cfg: Config, s: System, step: Step, after: System)
    requires step.Create? && AllowancesKept(cfg, s.db) && after == Apply(cfg, s, step)
    ensures AllowancesKept(cfg, after.db)
  {
    CreateLedger(cfg, s, step, after);
    if after.db.ledger != s.db.ledger {
      var e := Reservation(step.req, step.now);
      AdmittedUserHasRoom(cfg, s.db, e.user, e.device, e.ip, step.now);
      ReserveKeepsAllowances(cfg, s.db, after.db, step.r, e);
    } else {
      SameLedgerKeepsAllowances(cfg, s.db, after.db);
    }
  }

  lemma SameLedgerKeepsAllowances(cfg: Config, db: Db, after: Db)
    requires AllowancesKept(cfg, db) && after.accounts == db.accounts && after.grants == db.grants
             && after.ledger == db.ledger
    ensures AllowancesKept(cfg, after)
  {
    forall u, day | u in after.accounts ensures |LiveOf(after.ledger, u, day)| <= DailyLimit(cfg, after, u, day) {
      assert DailyLimit(cfg, after, u, day) == DailyLimit(cfg, db, u, day);
    }
  }

  lemma MoveKeepsAllowances(cfg: Config, s: System, step: Step, after: System)
    requires AllowancesKept(cfg, s.db) && LedgerMove(s, step, after)
    requires after.db.accounts == s.db.accounts && after.db.grants == s.db.grants
    ensures AllowancesKept(cfg, after.db)
  {
    forall u, day | u in after.db.accounts
        ensures |LiveOf(after.db.ledger, u, day)| <= DailyLimit(cfg, after.db, u, day) {
      if ChargesAt(s, step) { StatusCountsForUser(s.db.ledger, s.execs[step.e].run, Charged, u, day); }
      if step.Retry? || step.RequestCancel? { StatusCountsForUser(s.db.ledger, step.r, Released, u, day); }
      assert DailyLimit(cfg, after.db, u, day) == DailyLimit(cfg, s.db, u, day);
    }
  }

  lemma AdministrationKeepsAllowances(cfg: Config, s: System, step: Step, after: System)
    requires (step.Grant? || step.Activate?) && AllowancesKept(cfg, s.db) && after == Apply(cfg, s, step)
    ensures AllowancesKept(cfg, after.db)
  {
    AdministrationKeepsUnits(cfg, s, step, after);
    forall u, day | u in after.db.accounts
        ensures |LiveOf(after.db.ledger, u, day)| <= DailyLimit(cfg, after.db, u, day) {
      AdministrationNeverLowers(cfg, s, step, after, u, day);
    }
  }

  /** A grant raises its day's limit and switching an account leaves every limit alone. */
  lemma AdministrationNeverLowers(cfg: Config, s: System, step: Step, after: System, u: UserId, day: int)
    requires (step.Grant? || step.Activate?) && u in after.db.accounts && after == Apply(cfg, s, step)
    ensures u in s.db.accounts && DailyLimit(cfg, s.db, u, day) <= DailyLimit(cfg, after.db, u, day)
  {}

  lemma AllowancesKeptByStep(cfg: Config, s: System, step: Step, after: System)
    requires RowsDated(s.db) && AllowancesKept(cfg, s.db) && after == Apply(cfg, s, step)
    ensures AllowancesKept(cfg, after.db)
  {
    if step.Create? {
      CreateKeepsAllowances(cfg, s, step, after);
    } else if step.SweepSecurity? {
      PurgeKeepsAllowances(cfg, s.db, step.now);
    } else if step.Grant? || step.Activate? {
      AdministrationKeepsAllowances(cfg, s, step, after);
    } else {
      OnlyAdministrationChangesLimits(cfg, s, step, after);
      StepLedger(cfg, s, step, after);
      MoveKeepsAllowances(cfg, s, step, after);
    }
  }

  lemma NewRunIsActive(cfg: Config, runs: map<RunId, Run>, r: RunId, req: Request, now: Time, u: UserId)
    requires r !in runs
    ensures |ActiveRuns(runs[r := NewRun(cfg, req, now)], u)| ==
            |ActiveRuns(runs, u)| + (if req.owner == Some(u) then 1 else 0)
  {
    var before, after := ActiveRuns(runs, u), ActiveRuns(runs[r := NewRun(cfg, req, now)], u);
    forall q | q != r ensures q in before <==> q in after {}
    assert after == if req.owner == Some(u) then before + {r} else before;
  }

  lemma CreateKeepsConcurrency(cfg: Config, s: System, step: Step, after: System)
    requires step.Create? && ConcurrencyKept(cfg, s.db) && after == Apply(cfg, s, step)
    ensures ConcurrencyKept(cfg, after.db)
  {
    CreateStep(cfg, s, step, after);
    if after != s {
      CreateHasRoom(cfg, s, step, after);
      forall u ensures |ActiveRuns(after.db.runs, u)| <= cfg.maxConcurrent {
        NewRunIsActive(cfg, s.db.runs, step.r, step.req, step.now, u);
      }
    }
  }

  lemma CreateHasRoom(cfg: Config, s: System, step: Step, after: System)
    requires step.Create? && after == Apply(cfg, s, step) && after != s
    ensures step.req.owner.Some? ==> |ActiveRuns(s.db.runs, step.req.owner.value)| < cfg.maxConcurrent
  {
    CreateLedger(cfg, s, step, after);
    if step.req.owner.Some? { AdmittedUserHasRoom(cfg, s.db, step.req.owner.value, step.req.device, step.req.ip,
                                                  step.now); }
  }

  lemma RunsOnlyEnd(cfg: Config, s: System, step: Step, after: System, u: UserId)
    requires Sound(cfg, s) && !step.Create? && after == Apply(cfg, s, step)
    ensures ActiveRuns(after.db.runs, u) <= ActiveRuns(s.db.runs, u)
  {
    IdentityStays(cfg, s, step, after);
    forall r | r in ActiveRuns(after.db.runs, u) ensures r in ActiveRuns(s.db.runs, u) {
      if Terminal(s.db.runs[r].status) { TerminalIsAbsorbing(cfg, s, step, after, r); }
    }
  }

  lemma ConcurrencyKeptByStep(cfg: Config, s: System, step: Step, after: System)
    requires Sound(cfg, s) && ConcurrencyKept(cfg, s.db) && after == Apply(cfg, s, step)
    ensures ConcurrencyKept(cfg, after.db)
  {
    if step.Create? {
      CreateKeepsConcurrency(cfg, s, step, after);
    } else {
      forall u ensures |ActiveRuns(after.db.runs, u)| <= cfg.maxConcurrent {
        RunsOnlyEnd(cfg, s, step, after, u);
        SubsetCount(ActiveRuns(after.db.runs, u), ActiveRuns(s.db.runs, u));
      }
    }
  }

  lemma StepKeepsQuota(cfg: Config, s: System, step: Step, after: System)
    requires Sound(cfg, s) && QuotaOk(cfg, s.db) && after == Apply(cfg, s, step)
    ensures QuotaOk(cfg, after.db)
  {
    ConservedKept(cfg, s, step, after);
    BoundsKept(cfg, s, step, after);
    RowsKept(cfg, s, step, after);
    AllowancesKeptByStep(cfg, s, step, after);
    ConcurrencyKeptByStep(cfg, s, step, after);
  }

  lemma FreshQuota(cfg: Config, accounts: map<UserId, Account>)
    ensures QuotaOk(cfg, Fresh(accounts).db)
    ensures forall k :: Surplus(Fresh(accounts).db, k) == 0
  {
    var db := Fresh(accounts).db;
    assert forall k :: LiveUnder(db.ledger, k) == {};
    assert forall u, day :: LiveOf(db.ledger, u, day) == {};
    assert forall u :: ActiveRuns(db.runs, u) == {};
  }

  // ---------------------------------------------------------------- the limits in numbers

  /** The account's own number when it is set and not zero, else the installation's, and what is granted. */
  function AllowedBy(cfg: Config, account: Account, granted: nat): (n: nat) {
    granted +
    match account.dailyLimit
    case None => cfg.baseLimit
    case Some(own) => if own == 0 then cfg.baseLimit else own
  }

  function GrantRow(grants: map<(UserId, int), nat>, u: UserId, day: int): (n: nat) {
    if (u, day) in grants then grants[(u, day)] else 0
  }

  lemma LimitIs(cfg: Config, db: Db, u: UserId, day: int)
    requires u in db.accounts
    ensures DailyLimit(cfg, db, u, day) == AllowedBy(cfg, db.accounts[u], GrantRow(db.grants, u, day))
  {}

  /** The user's units of the day that have not been released. */
  function UnitsHeld(ledger: map<RunId, LedgerEntry>, u: UserId, day: int): (units: set<RunId>) {
    set r | r in ledger && ledger[r].user == u && ledger[r].day == day && ledger[r].status != Released
  }

  function UnfinishedOf(runs: map<RunId, Run>, u: UserId): (result: set<RunId>) {
    set r | r in runs && runs[r].owner == Some(u) && runs[r].status in {Status.Accepted, Dispatched, Working}
  }

  lemma HeldIsLive(ledger: map<RunId, LedgerEntry>, u: UserId, day: int)
    ensures UnitsHeld(ledger, u, day) == LiveOf(ledger, u, day)
  {}

  lemma WaitsOrWorks(status: Status)
    ensures status in {Status.Accepted, Dispatched, Working} <==> !Terminal(status)
  {
    match status
    case Accepted =>
    case Dispatched =>
    case Working =>
    case _ =>
  }

  lemma UnfinishedIsActive(runs: map<RunId, Run>, u: UserId)
    ensures UnfinishedOf(runs, u) == ActiveRuns(runs, u)
  {
    forall r ensures r in UnfinishedOf(runs, u) <==> r in ActiveRuns(runs, u) {
      if r in runs {
        WaitsOrWorks(runs[r].status);
      }
    }
  }

  /** A user's units of a day stay within the account's own number, or the installation's, and the grants;
      a user's unfinished runs within the setting. */
  ghost predicate WithinNumbers(cfg: Config, db: Db) {
    && (forall u, day :: u in db.accounts ==>
          |UnitsHeld(db.ledger, u, day)| <= AllowedBy(cfg, db.accounts[u], GrantRow(db.grants, u, day)))
    && (forall u :: |UnfinishedOf(db.runs, u)| <= cfg.maxConcurrent)
  }

  lemma OkIsWithin(cfg: Config, db: Db)
    requires QuotaOk(cfg, db)
    ensures WithinNumbers(cfg, db)
  {
    forall u, day | u in db.accounts
      ensures |UnitsHeld(db.ledger, u, day)| <= AllowedBy(cfg, db.accounts[u], GrantRow(db.grants, u, day))
    {
      LimitIs(cfg, db, u, day);
      HeldIsLive(db.ledger, u, day);
    }
    forall u ensures |UnfinishedOf(db.runs, u)| <= cfg.maxConcurrent { UnfinishedIsActive(db.runs, u); }
  }

  /** In every reachable state: no counter falls below its live units, no counter exceeds its limit,
      no user's live units exceed the day's limit, and no user has too many unfinished runs. */
  lemma {:induction false} QuotaOkAlways(cfg: Config, accounts: map<UserId, Account>, steps: seq<Step>, s: System)
    requires s == Protocol.Run(cfg, Fresh(accounts), steps)
    ensures QuotaOk(cfg, s.db) && WithinNumbers(cfg, s.db)
  {
    if steps == [] {
      FreshQuota(cfg, accounts);
    } else {
      var before := Protocol.Run(cfg, Fresh(accounts), steps[..|steps| - 1]);
      SoundAlways(cfg, accounts, steps[..|steps| - 1], before);
      QuotaOkAlways(cfg, accounts, steps[..|steps| - 1], before);
      StepKeepsQuota(cfg, before, steps[|steps| - 1], s);
    }
    OkIsWithin(cfg, s.db);
  }

  /** What the quota page shows is exact: nothing is clamped to zero. */
  lemma RemainingIsExact(cfg: Config, accounts: map<UserId, Account>, steps: seq<Step>, s: System, u: UserId,
                         day: int)
    requires s == Protocol.Run(cfg, Fresh(accounts), steps) && u in s.db.accounts
    ensures var a := AllowanceFor(cfg, s.db, u, day); a.remaining == a.limit - a.used
  {
    QuotaOkAlways(cfg, accounts, steps, s);
  }

  lemma LaterDaysAreSpared(db: Db, now: Time, u: UserId, day: int)
    requires RowsDated(db) && Day(now - NINETY_DAYS) < day
    ensures LiveOf(PurgeSecurity(db, now).ledger, u, day) == LiveOf(db.ledger, u, day)
  {
    forall r | r in LiveOf(db.ledger, u, day) ensures r in LiveOf(PurgeSecurity(db, now).ledger, u, day) {
      if db.ledger[r].reservedAt < now - NINETY_DAYS { DayIsMonotone(db.ledger[r].reservedAt, now - NINETY_DAYS); }
    }
  }

  /** In reachable states a security purge is invisible to admission: whatever is asked on a day after
      the cutoff's is answered as if nothing had been deleted, and so is what the quota page shows. */
  lemma PurgeIsInvisible(cfg: Config, accounts: map<UserId, Account>, steps: seq<Step>, s: System, now: Time,
                         purged: Db, u: UserId, device: Option<Digest>, ip: Option<Digest>, later: Time)
    requires s == Protocol.Run(cfg, Fresh(accounts), steps) && purged == PurgeSecurity(s.db, now)
    requires Day(now - NINETY_DAYS) < Day(later)
    ensures Assess(cfg, purged, u, device, ip, later) == Assess(cfg, s.db, u, device, ip, later)
    ensures u in s.db.accounts ==> AllowanceFor(cfg, purged, u, Day(later)) == AllowanceFor(cfg, s.db, u, Day(later))
  {
    QuotaOkAlways(cfg, accounts, steps, s);
    PurgeKeepsVerdict(cfg, s.db, now, purged, u, device, ip, later);
  }

  lemma PurgeKeepsVerdict(cfg: Config, db: Db, now: Time, purged: Db, u: UserId, device: Option<Digest>,
                          ip: Option<Digest>, later: Time)
    requires RowsDated(db) && purged == PurgeSecurity(db, now) && Day(now - NINETY_DAYS) < Day(later)
    ensures Assess(cfg, purged, u, device, ip, later) == Assess(cfg, db, u, device, ip, later)
    ensures u in db.accounts ==> AllowanceFor(cfg, purged, u, Day(later)) == AllowanceFor(cfg, db, u, Day(later))
  {
    LaterDaysAreSpared(db, now, u, Day(later));
    LaterLimitIsSpared(cfg, db, now, u, Day(later));
    LaterSignalsAreSpared(cfg, db, now, device, ip, Day(later));
  }

  lemma LaterLimitIsSpared(cfg: Config, db: Db, now: Time, u: UserId, day: int)
    requires Day(now - NINETY_DAYS) < day
    ensures u in db.accounts ==> DailyLimit(cfg, PurgeSecurity(db, now), u, day) == DailyLimit(cfg, db, u, day)
  {}

  lemma LaterSignalsAreSpared(cfg: Config, db: Db, now: Time, device: Option<Digest>, ip: Option<Digest>, day: int)
    requires Day(now - NINETY_DAYS) < day
    ensures SignalFull(cfg, PurgeSecurity(db, now).counters, device, ip, day) ==
            SignalFull(cfg, db.counters, device, ip, day)
    ensures Count(PurgeSecurity(db, now).counters, ServiceKey(day)) == Count(db.counters, ServiceKey(day))
  {
    forall k | DayOf(k) == day
        ensures Count(PurgeSecurity(db, now).counters, k) == Count(db.counters, k) { PurgedCount(db, now, k); }
  }

  /** The units leaked to one counter along a history. */
  ghost function Leaked(cfg: Config, s: System, steps: seq<Step>, k: CounterKey): (n: int) {
    if steps == [] then 0
    else
      var before := Protocol.Run(cfg, s, steps[..|steps| - 1]);
      Leaked(cfg, s, steps[..|steps| - 1], k) + Leak(cfg, before, steps[|steps| - 1], k)
  }

  /** The conservation law: a counter is its live units plus what has leaked to it. */
  lemma {:induction false} CountersBalance(cfg: Config, accounts: map<UserId, Account>, steps: seq<Step>, s: System,
                                           k: CounterKey)
    requires s == Protocol.Run(cfg, Fresh(accounts), steps)
    ensures Count(s.db.counters, k) == |LiveUnder(s.db.ledger, k)| + Leaked(cfg, Fresh(accounts), steps, k)
  {
    if steps == [] {
      FreshQuota(cfg, accounts);
      assert Surplus(Fresh(accounts).db, k) == 0;
    } else {
      var before := Protocol.Run(cfg, Fresh(accounts), steps[..|steps| - 1]);
      CountersBalance(cfg, accounts, steps[..|steps| - 1], before, k);
      QuotaOkAlways(cfg, accounts, steps[..|steps| - 1], before);
      StepSurplus(cfg, before, steps[|steps| - 1], s, k);
    }
  }

  /** The step can part a counter from its live units: it gives up a run that names the counter, or
      it is a security purge whose cutoff falls within the counter's own day. */
  predicate Disturbs(cfg: Config, s: System, step: Step, k: CounterKey) {
    || (GivesUp(cfg, s, step) && k in KeysOf(s.db.ledger[step.r]))
    || (step.SweepSecurity? && Day(step.now - NINETY_DAYS) == DayOf(k))
  }

  ghost predicate Undisturbed(cfg: Config, s: System, steps: seq<Step>, k: CounterKey) {
    steps == [] ||
    (&& Undisturbed(cfg, s, steps[..|steps| - 1], k)
     && !Disturbs(cfg, Protocol.Run(cfg, s, steps[..|steps| - 1]), steps[|steps| - 1], k))
  }

  lemma EarlierPurgeSpares(db: Db, now: Time, k: CounterKey)
    requires RowsDated(db) && Day(now - NINETY_DAYS) < DayOf(k)
    ensures PurgedUnits(db, now, k) == {}
  {
    forall r | r in LiveUnder(db.ledger, k) ensures db.ledger[r].reservedAt >= now - NINETY_DAYS {
      if db.ledger[r].reservedAt < now - NINETY_DAYS { DayIsMonotone(db.ledger[r].reservedAt, now - NINETY_DAYS); }
    }
  }

  lemma UndisturbedStep(cfg: Config, s: System, step: Step, k: CounterKey)
    requires Conserved(s.db) && RowsDated(s.db) && Surplus(s.db, k) == 0 && !Disturbs(cfg, s, step, k)
    ensures Leak(cfg, s, step, k) == 0
  {
    if step.SweepSecurity? {
      if Day(step.now - NINETY_DAYS) < DayOf(k) {
        EarlierPurgeSpares(s.db, step.now, k);
      } else {
        PurgeClearsDeadCounters(s.db, step.now, k);
      }
    }
  }

  /** A counter that no step has disturbed equals its live units. */
  lemma {:induction false} CountersAreExact(cfg: Config, accounts: map<UserId, Account>, steps: seq<Step>, s: System,
                                            k: CounterKey)
    requires s == Protocol.Run(cfg, Fresh(accounts), steps) && Undisturbed(cfg, Fresh(accounts), steps, k)
    ensures Surplus(s.db, k) == 0
  {
    if steps == [] {
      FreshQuota(cfg, accounts);
    } else {
      var before := Protocol.Run(cfg, Fresh(accounts), steps[..|steps| - 1]);
      CountersAreExact(cfg, accounts, steps[..|steps| - 1], before, k);
      QuotaOkAlways(cfg, accounts, steps[..|steps| - 1], before);
      UndisturbedStep(cfg, before, steps[|steps| - 1], k);
      StepSurplus(cfg, before, steps[|steps| - 1], s, k);
    }
  }

  /** A release at the attempt limit frees the user's unit but leaves the counters one too high. */
  lemma GivingUpLeaksOneUnit(cfg: Config, s: System, step: Step, after: System, k: CounterKey)
    requires GivesUp(cfg, s, step) && k in KeysOf(s.db.ledger[step.r]) && after == Apply(cfg, s, step)
    ensures Count(after.db.counters, k) == Count(s.db.counters, k)
    ensures |LiveUnder(after.db.ledger, k)| == |LiveUnder(s.db.ledger, k)| - 1
  {
    RetrySurplus(cfg, s, step, after, k);
    GiveUpKeepsLimits(cfg, s, step, after);
  }

  /** In reachable states no decrement is ever clamped at zero. */
  lemma NoDecrementIsClamped(cfg: Config, accounts: map<UserId, Account>, steps: seq<Step>, s: System, r: RunId,
                             k: CounterKey)
    requires s == Protocol.Run(cfg, Fresh(accounts), steps)
    requires r in s.db.ledger && s.db.ledger[r].status == Reserved && k in KeysOf(s.db.ledger[r])
    ensures k in s.db.counters && k in ReleaseReserved(s.db, r).counters
    ensures ReleaseReserved(s.db, r).counters[k] + 1 == s.db.counters[k]
  {
    QuotaOkAlways(cfg, accounts, steps, s);
    LiveRowsAreCounted(s.db, r, k);
  }
}
