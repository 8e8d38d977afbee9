/** What a user may have, from the account, the history's grants and the settings alone: how many units a
    day, what the quota page shows, and exactly when a new run is admitted. */
module Allowances {
  import opened Records
  import opened Transactions
  import opened Protocol
  import opened RunInvariants
  import opened RunTransitions
  import opened ChargeSafety
  import opened QuotaSafety

  // ---------------------------------------------------------------- grants and accounts over a history

  /** The units granted to the user for the day along a history. */
  function GrantedUnits(steps: seq<Step>, u: UserId, day: int): (n: nat) {
    if steps == [] then 0
    else
      var step := steps[|steps| - 1];
      GrantedUnits(steps[..|steps| - 1], u, day) +
      (if step.Grant? && step.u == u && step.day == day then step.units else 0)
  }

  /** The units the user may have on the day after a history. */
  function UnitsAllowed(cfg: Config, accounts: map<UserId, Account>, steps: seq<Step>, u: UserId, day: int): (n: nat)
    requires u in accounts
  {
    AllowedBy(cfg, accounts[u], GrantedUnits(steps, u, day))
  }

  /** The account is active: it was from the start, or the last switch of it says so. */
  predicate SwitchedOn(accounts: map<UserId, Account>, steps: seq<Step>, u: UserId)
    requires u in accounts
  {
    if steps == [] then accounts[u].active
    else
      var step := steps[|steps| - 1];
      if step.Activate? && step.u == u then step.active else SwitchedOn(accounts, steps[..|steps| - 1], u)
  }

  /** No security purge has passed the day. */
  predicate DayKept(s: System, day: int) {
    s.cutoff.Some? ==> s.cutoff.value / 86_400_000_000 <= day
  }

  predicate AccountsStay(accounts: map<UserId, Account>, db: Db) {
    db.accounts.Keys == accounts.Keys && forall u :: u in accounts ==>
        db.accounts[u].dailyLimit == accounts[u].dailyLimit
  }

  predicate GrantsCounted(s: System, granted: nat, u: UserId, day: int) {
    GrantRow(s.db.grants, u, day) <= granted && (DayKept(s, day) ==> GrantRow(s.db.grants, u, day) == granted)
  }

  lemma RequestKeepsGrants(db: Db, r: RunId, now: Time, after: Db)
    requires after == RequestCancellation(db, r, now)
    ensures after.accounts == db.accounts && after.grants == db.grants
  {}

  lemma OthersKeepGrants(cfg: Config, s: System, step: Step, after: System)
    requires !step.SweepSecurity? && !step.Grant? && !step.Activate? && after == Apply(cfg, s, step)
    ensures after.db.accounts == s.db.accounts && after.db.grants == s.db.grants && after.cutoff == s.cutoff
  {
    OnlySecuritySweepMovesCutoff(cfg, s, step, after);
    if step.Create? {
      CreateLedger(cfg, s, step, after);
    } else if step.RequestCancel? {
      RequestKeepsGrants(s.db, step.r, step.now, after.db);
    } else {
      OnlyQuotaStepsCount(cfg, s, step, after);
    }
  }

  lemma PurgeOfGrants(cfg: Config, s: System, step: Step, after: System, u: UserId, day: int)
    requires step.SweepSecurity? && after == Apply(cfg, s, step)
    ensures after.db.accounts == s.db.accounts
    ensures GrantRow(after.db.grants, u, day) <= GrantRow(s.db.grants, u, day)
    ensures DayKept(after, day) ==>
            DayKept(s, day) && GrantRow(after.db.grants, u, day) == GrantRow(s.db.grants, u, day)
  {
    var cutoff := step.now - NINETY_DAYS;
    assert after.db.grants == s.db.grants - (set g | g in s.db.grants && g.1 < Day(cutoff));
    if s.cutoff.Some? && s.cutoff.value < cutoff { DayIsMonotone(s.cutoff.value, cutoff); }
    if s.cutoff.Some? && cutoff <= s.cutoff.value { DayIsMonotone(cutoff, s.cutoff.value); }
  }

  lemma GrantAdds(db: Db, q: UserId, of: int, units: nat, after: Db, u: UserId, day: int)
    requires after == AddGrant(db, q, of, units) && u in db.accounts
    ensures after.accounts == db.accounts
    ensures GrantRow(after.grants, u, day) == GrantRow(db.grants, u, day) + (if q == u && of == day then units else 0)
  {}

  lemma SwitchKeepsLimits(db: Db, q: UserId, active: bool, after: Db)
    requires after == SetAccount(db, q, active)
    ensures AccountsStay(db.accounts, after) && after.grants == db.grants
  {}

  lemma AdministrationOf(cfg: Config, s: System, step: Step, after: System)
    requires (step.Grant? || step.Activate?) && after == Apply(cfg, s, step)
    ensures after.cutoff == s.cutoff
    ensures after.db == if step.Grant? then AddGrant(s.db, step.u, step.day, step.units)
                        else SetAccount(s.db, step.u, step.active)
  {}

  lemma GrantOrSwitch(cfg: Config, s: System, step: Step, after: System, u: UserId, day: int)
    requires (step.Grant? || step.Activate?) && u in s.db.accounts && after == Apply(cfg, s, step)
    ensures AccountsStay(s.db.accounts, after.db) && after.cutoff == s.cutoff
    ensures GrantRow(after.db.grants, u, day) == GrantRow(s.db.grants, u, day) +
            (if step.Grant? && step.u == u && step.day == day then step.units else 0)
  {
    AdministrationOf(cfg, s, step, after);
    if step.Grant? {
      GrantAdds(s.db, step.u, step.day, step.units, after.db, u, day);
    } else {
      SwitchKeepsLimits(s.db, step.u, step.active, after.db);
    }
  }

  /** Accounts and their own limits stay for good, and the grant rows hold what has been granted unless a
      purge has passed their day. */
  lemma {:induction false} GrantsAlways(cfg: Config, accounts: map<UserId, Account>, steps: seq<Step>, s: System,
                                        u: UserId, day: int)
    requires s == Protocol.Run(cfg, Fresh(accounts), steps) && u in accounts
    ensures AccountsStay(accounts, s.db) && GrantsCounted(s, GrantedUnits(steps, u, day), u, day)
  {
    if steps != [] {
      var most, step := steps[..|steps| - 1], steps[|steps| - 1];
      var before := Protocol.Run(cfg, Fresh(accounts), most);
      GrantsAlways(cfg, accounts, most, before, u, day);
      if step.SweepSecurity? {
        PurgeOfGrants(cfg, before, step, s, u, day);
      } else if step.Grant? || step.Activate? {
        GrantOrSwitch(cfg, before, step, s, u, day);
      } else {
        OthersKeepGrants(cfg, before, step, s);
      }
    }
  }

  lemma SwitchSets(db: Db, q: UserId, active: bool, after: Db, u: UserId)
    requires after == SetAccount(db, q, active) && u in db.accounts
    ensures u in after.accounts && after.accounts[u].active == if q == u then active else db.accounts[u].active
  {
    if q in db.accounts {
      var row := db.accounts[q].(active := active);
      assert after.accounts == db.accounts[q := row];
    }
  }

  lemma SwitchStep(cfg: Config, s: System, step: Step, after: System, u: UserId)
    requires after == Apply(cfg, s, step) && u in s.db.accounts
    ensures u in after.db.accounts
    ensures after.db.accounts[u].active ==
            if step.Activate? && step.u == u then step.active else s.db.accounts[u].active
  {
    if step.SweepSecurity? {
      PurgeOfGrants(cfg, s, step, after, u, 0);
    } else if step.Grant? || step.Activate? {
      AdministrationOf(cfg, s, step, after);
      if step.Activate? {
        SwitchSets(s.db, step.u, step.active, after.db, u);
      } else {
        GrantAdds(s.db, step.u, step.day, step.units, after.db, u, 0);
      }
    } else {
      OthersKeepGrants(cfg, s, step, after);
    }
  }

  lemma {:induction false} SwitchesAlways(cfg: Config, accounts: map<UserId, Account>, steps: seq<Step>, s: System,
                                          u: UserId)
    requires s == Protocol.Run(cfg, Fresh(accounts), steps) && u in accounts
    ensures u in s.db.accounts && s.db.accounts[u].active == SwitchedOn(accounts, steps, u)
  {
    if steps != [] {
      var before := Protocol.Run(cfg, Fresh(accounts), steps[..|steps| - 1]);
      SwitchesAlways(cfg, accounts, steps[..|steps| - 1], before, u);
      SwitchStep(cfg, before, steps[|steps| - 1], s, u);
    }
  }

  lemma LimitIsAllowed(cfg: Config, accounts: map<UserId, Account>, steps: seq<Step>, s: System, u: UserId, day: int)
    requires s == Protocol.Run(cfg, Fresh(accounts), steps) && u in accounts
    ensures u in s.db.accounts && DailyLimit(cfg, s.db, u, day) <= UnitsAllowed(cfg, accounts, steps, u, day)
    ensures DayKept(s, day) ==> DailyLimit(cfg, s.db, u, day) == UnitsAllowed(cfg, accounts, steps, u, day)
  {
    GrantsAlways(cfg, accounts, steps, s, u, day);
    assert s.db.accounts[u].dailyLimit == accounts[u].dailyLimit;
    LimitIs(cfg, s.db, u, day);
  }

  // ---------------------------------------------------------------- how much a user has

  /** Over every history a user's units of a day stay within the account's own number, or the
      installation's where there is none, plus what was granted; and so do the unfinished runs. */
  lemma UnitsStayAllowed(cfg: Config, accounts: map<UserId, Account>, steps: seq<Step>, s: System, u: UserId, day: int)
    requires s == Protocol.Run(cfg, Fresh(accounts), steps)
    ensures u in accounts ==> |UnitsHeld(s.db.ledger, u, day)| <= UnitsAllowed(cfg, accounts, steps, u, day)
    ensures u !in accounts ==> UnitsHeld(s.db.ledger, u, day) == {}
    ensures |UnfinishedOf(s.db.runs, u)| <= cfg.maxConcurrent
  {
    QuotaOkAlways(cfg, accounts, steps, s);
    HeldIsLive(s.db.ledger, u, day);
    UnfinishedIsActive(s.db.runs, u);
    assert |ActiveRuns(s.db.runs, u)| <= cfg.maxConcurrent;
    if u in accounts {
      LimitIsAllowed(cfg, accounts, steps, s, u, day);
    } else {
      StrangersHoldNone(cfg, accounts, steps, s, u, day);
    }
  }

  lemma {:induction false} AccountsAlways(cfg: Config, accounts: map<UserId, Account>, steps: seq<Step>, s: System)
    requires s == Protocol.Run(cfg, Fresh(accounts), steps)
    ensures s.db.accounts.Keys == accounts.Keys
  {
    if steps != [] {
      var before := Protocol.Run(cfg, Fresh(accounts), steps[..|steps| - 1]);
      AccountsAlways(cfg, accounts, steps[..|steps| - 1], before);
      AccountsStep(cfg, before, steps[|steps| - 1], s);
    }
  }

  lemma AccountsStep(cfg: Config, s: System, step: Step, after: System)
    requires after == Apply(cfg, s, step)
    ensures after.db.accounts.Keys == s.db.accounts.Keys
  {
    if step.SweepSecurity? {
      PurgeOfGrants(cfg, s, step, after, "", 0);
    } else if step.Grant? || step.Activate? {
      SwitchKeepsAccounts(cfg, s, step, after);
    } else {
      OthersKeepGrants(cfg, s, step, after);
    }
  }

  lemma SwitchKeepsAccounts(cfg: Config, s: System, step: Step, after: System)
    requires (step.Grant? || step.Activate?) && after == Apply(cfg, s, step)
    ensures after.db.accounts.Keys == s.db.accounts.Keys
  {
    AdministrationOf(cfg, s, step, after);
    if step.Activate? { SwitchKeepsLimits(s.db, step.u, step.active, after.db); }
  }

  lemma StrangersHoldNone(cfg: Config, accounts: map<UserId, Account>, steps: seq<Step>, s: System, u: UserId, day: int)
    requires s == Protocol.Run(cfg, Fresh(accounts), steps) && u !in accounts
    ensures UnitsHeld(s.db.ledger, u, day) == {}
  {
    QuotaOkAlways(cfg, accounts, steps, s);
    AccountsAlways(cfg, accounts, steps, s);
  }

  /** The page for these tables. */
  lemma PageIs(cfg: Config, db: Db, u: UserId, day: int)
    requires u in db.accounts
    ensures var limit := AllowedBy(cfg, db.accounts[u], GrantRow(db.grants, u, day));
            var held := |UnitsHeld(db.ledger, u, day)|;
            AllowanceFor(cfg, db, u, day) == Allowance(limit, held, if held < limit then limit - held else 0)
  {
    LimitIs(cfg, db, u, day);
    HeldIsLive(db.ledger, u, day);
  }

  /** The quota page shows the units allowed, the units held and what is left, as long as no purge has
      passed the day. */
  lemma PageShowsAllowed(cfg: Config, accounts: map<UserId, Account>, steps: seq<Step>, s: System, u: UserId, day: int)
    requires s == Protocol.Run(cfg, Fresh(accounts), steps) && u in accounts && DayKept(s, day)
    ensures u in s.db.accounts
    ensures var allowed, held := UnitsAllowed(cfg, accounts, steps, u, day), |UnitsHeld(s.db.ledger, u, day)|;
            held <= allowed && AllowanceFor(cfg, s.db, u, day) == Allowance(allowed, held, allowed - held)
  {
    LimitIsAllowed(cfg, accounts, steps, s, u, day);
    HeldIsLive(s.db.ledger, u, day);
    QuotaOkAlways(cfg, accounts, steps, s);
  }

  // ---------------------------------------------------------------- devices, addresses and the service

  function DeviceUnits(ledger: map<RunId, LedgerEntry>, d: Digest, day: int): (units: set<RunId>) {
    set r | r in ledger && ledger[r].device == Some(d) && ledger[r].day == day && ledger[r].status != Released
  }

  function AddressUnits(ledger: map<RunId, LedgerEntry>, a: Digest, day: int): (units: set<RunId>) {
    set r | r in ledger && ledger[r].ip == Some(a) && ledger[r].day == day && ledger[r].status != Released
  }

  function ServiceUnits(ledger: map<RunId, LedgerEntry>, day: int): (units: set<RunId>) {
    set r | r in ledger && ledger[r].day == day && ledger[r].status != Released
  }

  lemma UnitsAreLive(ledger: map<RunId, LedgerEntry>, d: Digest, day: int)
    ensures DeviceUnits(ledger, d, day) == LiveUnder(ledger, DeviceKey(d, day))
    ensures AddressUnits(ledger, d, day) == LiveUnder(ledger, IpKey(d, day))
    ensures ServiceUnits(ledger, day) == LiveUnder(ledger, ServiceKey(day))
  {
    forall r ensures r in DeviceUnits(ledger, d, day) <==> r in LiveUnder(ledger, DeviceKey(d, day)) {}
    forall r ensures r in AddressUnits(ledger, d, day) <==> r in LiveUnder(ledger, IpKey(d, day)) {}
    forall r ensures r in ServiceUnits(ledger, day) <==> r in LiveUnder(ledger, ServiceKey(day)) {}
  }

  /** Over every history the units one device, one address or the whole service has on a day stay within
      their settings. */
  lemma SharedUnitsStayWithin(cfg: Config, accounts: map<UserId, Account>, steps: seq<Step>, s: System, d: Digest,
                              day: int)
    requires s == Protocol.Run(cfg, Fresh(accounts), steps)
    ensures |DeviceUnits(s.db.ledger, d, day)| <= cfg.deviceLimit
    ensures |AddressUnits(s.db.ledger, d, day)| <= cfg.ipLimit
    ensures |ServiceUnits(s.db.ledger, day)| <= cfg.serviceLimit
  {
    QuotaOkAlways(cfg, accounts, steps, s);
    UnitsAreLive(s.db.ledger, d, day);
    KeyIsBounded(cfg, s.db, DeviceKey(d, day));
    KeyIsBounded(cfg, s.db, IpKey(d, day));
    KeyIsBounded(cfg, s.db, ServiceKey(day));
  }

  lemma KeyIsBounded(cfg: Config, db: Db, k: CounterKey)
    requires Conserved(db) && CountersBounded(cfg, db)
    ensures |LiveUnder(db.ledger, k)| <= LimitOf(cfg, k)
  {
    assert Surplus(db, k) >= 0;
    assert Count(db.counters, k) <= LimitOf(cfg, k);
  }

  // ---------------------------------------------------------------- exactly when a run is admitted

  /** One more unit fits the counter. */
  predicate FitsCounter(counters: map<CounterKey, nat>, k: CounterKey, limit: nat) {
    0 < limit && (k in counters ==> counters[k] < limit)
  }

  /** One more unit fits the counters of the device, the address and the service. */
  predicate FitsShared(cfg: Config, counters: map<CounterKey, nat>, device: Option<Digest>, ip: Option<Digest>,
                       day: int) {
    && (device.Some? ==> FitsCounter(counters, DeviceKey(device.value, day), cfg.deviceLimit))
    && (ip.Some? ==> FitsCounter(counters, IpKey(ip.value, day), cfg.ipLimit))
    && FitsCounter(counters, ServiceKey(day), cfg.serviceLimit)
  }

  /** The user's account is active after the history and one more unit fits the day. */
  predicate FitsUser(cfg: Config, accounts: map<UserId, Account>, steps: seq<Step>, db: Db, u: UserId, day: int)
    requires u in accounts
  {
    SwitchedOn(accounts, steps, u) && |UnitsHeld(db.ledger, u, day)| < UnitsAllowed(cfg, accounts, steps, u, day)
  }

  lemma SignalsFit(cfg: Config, counters: map<CounterKey, nat>, device: Option<Digest>, ip: Option<Digest>, day: int)
    ensures !SignalFull(cfg, counters, device, ip, day) && Count(counters, ServiceKey(day)) < cfg.serviceLimit
            <==> FitsShared(cfg, counters, device, ip, day)
  {
    if device.Some? { assert DeviceKey(device.value, day) in SignalKeys(device, ip, day); }
    if ip.Some? { assert IpKey(ip.value, day) in SignalKeys(device, ip, day); }
  }

  /** What these tables make of a new run on the day. */
  function VerdictOn(cfg: Config, db: Db, u: UserId, device: Option<Digest>, ip: Option<Digest>,
                     day: int): (verdict: Verdict) {
    if || u !in db.accounts || !db.accounts[u].active
       || |UnitsHeld(db.ledger, u, day)| >= AllowedBy(cfg, db.accounts[u], GrantRow(db.grants, u, day))
       || !FitsShared(cfg, db.counters, device, ip, day)
    then QuotaExceeded
    else if |UnfinishedOf(db.runs, u)| < cfg.maxConcurrent then Admit
    else TooManyRuns
  }

  lemma VerdictIs(cfg: Config, db: Db, u: UserId, device: Option<Digest>, ip: Option<Digest>, now: Time)
    ensures Assess(cfg, db, u, device, ip, now) == VerdictOn(cfg, db, u, device, ip, now / 86_400_000_000)
  {
    HeldIsLive(db.ledger, u, Day(now));
    UnfinishedIsActive(db.runs, u);
    SignalsFit(cfg, db.counters, device, ip, Day(now));
    if u in db.accounts { LimitIs(cfg, db, u, Day(now)); }
  }

  /** After any history a new run is admitted exactly when the account is active, one more unit fits the
      user's day and the counters of the device, the address and the service, and the user has fewer
      unfinished runs than the setting; when only the last fails, the refusal says so. */
  lemma AdmittedIff(cfg: Config, accounts: map<UserId, Account>, steps: seq<Step>, s: System, u: UserId,
                    device: Option<Digest>, ip: Option<Digest>, now: Time)
    requires s == Protocol.Run(cfg, Fresh(accounts), steps) && DayKept(s, now / 86_400_000_000)
    ensures u !in accounts ==> Assess(cfg, s.db, u, device, ip, now) == QuotaExceeded
    ensures u in accounts ==>
              Assess(cfg, s.db, u, device, ip, now) ==
              if !FitsUser(cfg, accounts, steps, s.db, u, now / 86_400_000_000)
                 || !FitsShared(cfg, s.db.counters, device, ip, now / 86_400_000_000) then QuotaExceeded
              else if |UnfinishedOf(s.db.runs, u)| < cfg.maxConcurrent then Admit
              else TooManyRuns
  {
    AccountsAlways(cfg, accounts, steps, s);
    if u in accounts {
      SwitchesAlways(cfg, accounts, steps, s, u);
      LimitIsAllowed(cfg, accounts, steps, s, u, now / 86_400_000_000);
      LimitIs(cfg, s.db, u, now / 86_400_000_000);
    }
    VerdictIs(cfg, s.db, u, device, ip, now);
  }

  // ---------------------------------------------------------------- what an admitted run takes, and gives back

  /** The table with one more at the keys of a device, an address and the service. */
  ghost predicate OneMore(counters: map<CounterKey, nat>, after: map<CounterKey, nat>, device: Option<Digest>,
                    ip: Option<Digest>, day: int) {
    forall k: CounterKey ::
        Count(after, k) ==
        Count(counters, k) +
        (if || (k.DeviceKey? && device == Some(k.digest) && k.day == day)
            || (k.IpKey? && ip == Some(k.digest) && k.day == day)
            || k == ServiceKey(day)
         then 1 else 0)
  }

  lemma KeysAre(e: LedgerEntry, k: CounterKey)
    ensures k in KeysOf(e) <==>
            || (k.DeviceKey? && e.device == Some(k.digest) && k.day == e.day)
            || (k.IpKey? && e.ip == Some(k.digest) && k.day == e.day)
            || k == ServiceKey(e.day)
  {}

  lemma ReservationTakes(counters: map<CounterKey, nat>, e: LedgerEntry, after: map<CounterKey, nat>)
    requires after == Increment(counters, KeysOf(e))
    ensures OneMore(counters, after, e.device, e.ip, e.day)
  {
    forall k: CounterKey
      ensures Count(after, k) ==
              Count(counters, k) +
              (if || (k.DeviceKey? && e.device == Some(k.digest) && k.day == e.day)
                  || (k.IpKey? && e.ip == Some(k.digest) && k.day == e.day)
                  || k == ServiceKey(e.day)
               then 1 else 0)
    {
      KeysAre(e, k);
      IncrementCounts(counters, KeysOf(e), k);
    }
  }

  /** Every user's run that is created takes one unit of the day from the user, the device, the address and
      the service, and there was room for it everywhere. */
  lemma CreateTakesOneUnit(cfg: Config, accounts: map<UserId, Account>, steps: seq<Step>, s: System, r: RunId,
                           req: Request, now: Time, after: System, u: UserId)
    requires s == Protocol.Run(cfg, Fresh(accounts), steps) && after == Apply(cfg, s, Create(r, req, now))
    requires DayKept(s, now / 86_400_000_000) && req.owner == Some(u) && after != s
    ensures after.db.ledger ==
            s.db.ledger[r := LedgerEntry(u, req.device, req.ip, now / 86_400_000_000, Reserved, now)]
    ensures r !in s.db.ledger && OneMore(s.db.counters, after.db.counters, req.device, req.ip, now / 86_400_000_000)
    ensures u in accounts && FitsUser(cfg, accounts, steps, s.db, u, now / 86_400_000_000)
            && FitsShared(cfg, s.db.counters, req.device, req.ip, now / 86_400_000_000)
            && |UnfinishedOf(s.db.runs, u)| < cfg.maxConcurrent
  {
    CreateLedger(cfg, s, Create(r, req, now), after);
    ReservationTakes(s.db.counters, Reservation(req, now), after.db.counters);
    AdmittedIff(cfg, accounts, steps, s, u, req.device, req.ip, now);
  }

  lemma ReleaseGives(db: Db, r: RunId, after: Db)
    requires Conserved(db) && r in db.ledger && db.ledger[r].status == Reserved && after == ReleaseReserved(db, r)
    ensures after.ledger == db.ledger[r := db.ledger[r].(status := Released)]
    ensures OneMore(after.counters, db.counters, db.ledger[r].device, db.ledger[r].ip, db.ledger[r].day)
  {
    var e := db.ledger[r];
    forall k: CounterKey
      ensures Count(db.counters, k) ==
              Count(after.counters, k) +
              (if || (k.DeviceKey? && e.device == Some(k.digest) && k.day == e.day)
                  || (k.IpKey? && e.ip == Some(k.digest) && k.day == e.day)
                  || k == ServiceKey(e.day)
               then 1 else 0)
    {
      KeysAre(e, k);
      if k in KeysOf(e) { LiveRowsAreCounted(db, r, k); }
    }
  }

  /** A request to stop a run that still waits gives its unit back everywhere; of a run that has been
      dispatched it gives nothing back. */
  lemma RequestGivesBack(cfg: Config, accounts: map<UserId, Account>, steps: seq<Step>, s: System, r: RunId, now: Time,
                         after: System)
    requires s == Protocol.Run(cfg, Fresh(accounts), steps) && after == Apply(cfg, s, RequestCancel(r, now))
    requires r in s.db.runs && s.db.runs[r].cancelRequested.None? && r in s.db.ledger
             && s.db.ledger[r].status == Reserved
    ensures s.db.runs[r].status == Status.Accepted ==>
              && after.db.ledger == s.db.ledger[r := s.db.ledger[r].(status := Released)]
              && OneMore(after.db.counters, s.db.counters, s.db.ledger[r].device, s.db.ledger[r].ip, s.db.ledger[r].day)
    ensures s.db.runs[r].status != Status.Accepted ==>
              after.db.ledger == s.db.ledger && after.db.counters == s.db.counters
  {
    QuotaOkAlways(cfg, accounts, steps, s);
    ReleaseGives(s.db, r, ReleaseReserved(s.db, r));
    RequestOf(s.db, r, now, after.db);
  }

  lemma RequestOf(db: Db, r: RunId, now: Time, after: Db)
    requires after == RequestCancellation(db, r, now) && r in db.runs && db.runs[r].cancelRequested.None?
    ensures if db.runs[r].status == Status.Accepted
            then after.ledger == ReleaseReserved(db, r).ledger && after.counters == ReleaseReserved(db, r).counters
            else after.ledger == db.ledger && after.counters == db.counters
  {}

  /** An execution that has set the run working charges its reserved unit: the row alone changes, and the
      counters keep it. */
  lemma ChargeTakesTheUnit(cfg: Config, s: System, e: ExecId, after: System, r: RunId)
    requires after == Apply(cfg, s, ChargeRun(e)) && At(s, e, StatusSet) && r == s.execs[e].run
    requires r in s.db.ledger && s.db.ledger[r].status == Reserved
    ensures after.db == s.db.(ledger := s.db.ledger[r := s.db.ledger[r].(status := Charged)])
  {}

  /** A security purge removes the units reserved more than ninety days before it and no other. */
  lemma PurgeRemovesOldUnits(cfg: Config, s: System, now: Time, after: System)
    requires after == Apply(cfg, s, SweepSecurity(now))
    ensures forall r :: r in after.db.ledger <==>
                        r in s.db.ledger && now - 90 * 86_400_000_000 <= s.db.ledger[r].reservedAt
    ensures forall r :: r in after.db.ledger ==> after.db.ledger[r] == s.db.ledger[r]
    ensures forall k: CounterKey :: k in after.db.counters <==>
                        k in s.db.counters && (now - 90 * 86_400_000_000) / 86_400_000_000 <= k.day
    ensures forall g :: g in after.db.grants <==>
                        g in s.db.grants && (now - 90 * 86_400_000_000) / 86_400_000_000 <= g.1
  {
    var cutoff := now - NINETY_DAYS;
    assert after.db.counters == s.db.counters - (set k | k in s.db.counters && DayOf(k) < Day(cutoff));
    assert after.db.grants == s.db.grants - (set g | g in s.db.grants && g.1 < Day(cutoff));
  }
}
