/** Leases: no claim takes a run whose lease is unexpired, and a punctual worker renews in time. */
module Lease {
  import opened Records
  import opened Transactions
  import opened Protocol
  import opened RunInvariants
  import opened RunTransitions

  // ---------------------------------------------------------------- claims respect leases

  lemma UnexpiredIsNotClaimable(cfg: Config, run: Run, now: Time)
    requires LeaseOk(cfg, run) && run.leaseExpires.Some? && now < run.leaseExpires.value
    ensures !Claimable(cfg, run, now)
  {}

  /** In every reachable state, no claim by any worker touches a run whose lease has not expired. */
  lemma ClaimLeavesHeldRuns(cfg: Config, accounts: map<UserId, Account>, steps: seq<Step>, s: System, step: Step,
                            after: System, r: RunId)
    requires s == Protocol.Run(cfg, Fresh(accounts), steps) && after == Apply(cfg, s, step)
    requires step.ClaimNext? && r in s.db.runs
    requires s.db.runs[r].leaseExpires.Some? && step.now < s.db.runs[r].leaseExpires.value
    ensures r in after.db.runs && after.db.runs[r] == s.db.runs[r]
  {
    RunsOkAlways(cfg, accounts, steps);
    assert RunOk(cfg, s.db.runs[r]);
    UnexpiredIsNotClaimable(cfg, s.db.runs[r], step.now);
    ClaimStepOfOthers(cfg, s, step, after, r);
  }

  // ---------------------------------------------------------------- the polling loop of one claimed run

  /** Clock readings of one pass: when it looks at the clock and, if a renewal is due, the time the
      renewal writes, its commit, and the reading taken when it has returned. */
  datatype Tick = Tick(checked: Time, now: Time, committed: Time, returned: Time)

  datatype Renewal = Renewal(now: Time, committed: Time)

  /** The loop's memory: when it last renewed, by its own clock, and what it has renewed so far. */
  datatype Watch = Watch(renewedAt: Time, renewals: seq<Renewal>)

  predicate Due(lease: nat, w: Watch, t: Tick) {
    3 * (t.checked - w.renewedAt) >= lease
  }

  function Pass(lease: nat, w: Watch, t: Tick): (watch: Watch) {
    if Due(lease, w, t) then Watch(t.returned, w.renewals + [Renewal(t.now, t.committed)]) else w
  }

  function Passes(lease: nat, started: Time, ticks: seq<Tick>): (watch: Watch) {
    if ticks == [] then Watch(started, [])
    else Pass(lease, Passes(lease, started, ticks[..|ticks| - 1]), ticks[|ticks| - 1])
  }

  /** The part of `execute_claimed_run` that keeps the lease: one pass for each tick. */
  method KeepLease(lease: nat, started: Time, ticks: seq<Tick>) returns (renewals: seq<Renewal>)
    ensures renewals == Passes(lease, started, ticks).renewals
  {
    var leaseRenewedAt := started;
    renewals := [];
    for i := 0 to |ticks|
      invariant Passes(lease, started, ticks[..i]) == Watch(leaseRenewedAt, renewals)
    {
      assert ticks[..i + 1][..i] == ticks[..i];
      if 3 * (ticks[i].checked - leaseRenewedAt) >= lease {
        renewals := renewals + [Renewal(ticks[i].now, ticks[i].committed)];
        leaseRenewedAt := ticks[i].returned;
      }
    }
    assert ticks[..|ticks|] == ticks;
  }

  /** When the previous pass, or the start, was over. */
  function PassEnd(lease: nat, started: Time, ticks: seq<Tick>): (result: Time) {
    if ticks == [] then started
    else if Due(lease, Passes(lease, started, ticks[..|ticks| - 1]), ticks[|ticks| - 1])
        then ticks[|ticks| - 1].returned
    else ticks[|ticks| - 1].checked
  }

  /** The time written by the latest renewal, or by the claim. */
  function Base(claimed: Time, renewals: seq<Renewal>): (result: Time) {
    if renewals == [] then claimed else renewals[|renewals| - 1].now
  }

  /** A pass begins, and commits its renewal if one is due, at most `poll + delay` after the previous
      one ended; writing a lease and returning takes at most `trip`. */
  predicate Punctual(lease: nat, poll: nat, delay: nat, trip: nat, claimed: Time, started: Time, ticks: seq<Tick>) {
    && claimed <= started <= claimed + trip
    && forall i :: 0 <= i < |ticks| ==> OnTime(lease, poll, delay, trip, started, ticks, i)
  }

  predicate OnTime(lease: nat, poll: nat, delay: nat, trip: nat, started: Time, ticks: seq<Tick>, i: nat)
    requires i < |ticks|
  {
    var t := ticks[i];
    var end := PassEnd(lease, started, ticks[..i]);
    && end <= t.checked <= t.now <= t.committed <= t.returned
    && t.committed <= end + poll + delay && t.returned <= t.now + trip
  }

  /** The lease in force never runs out: each renewal commits before its predecessor expires. */
  predicate NeverLapses(lease: nat, claimed: Time, renewals: seq<Renewal>) {
    forall j :: 0 <= j < |renewals| ==> renewals[j].committed < Base(claimed, renewals[..j]) + lease
  }

  predicate Fits(lease: nat, poll: nat, delay: nat, trip: nat) {
    lease > 0 && 3 * (poll + delay + trip) <= 2 * lease
  }

  /** What the loop knows after some passes. */
  predicate InHand(lease: nat, trip: nat, claimed: Time, started: Time, ticks: seq<Tick>) {
    var w := Passes(lease, started, ticks);
    var end := PassEnd(lease, started, ticks);
    && NeverLapses(lease, claimed, w.renewals)
    && w.renewedAt <= Base(claimed, w.renewals) + trip
    && (end == w.renewedAt || 3 * (end - w.renewedAt) < lease)
  }

  /** A pass that begins in time commits before the lease in force expires. */
  lemma CommitsInTime(lease: nat, poll: nat, delay: nat, trip: nat, base: Time, renewedAt: Time, end: Time,
                      committed: Time)
    requires Fits(lease, poll, delay, trip) && renewedAt <= base + trip && committed <= end + poll + delay
    requires end == renewedAt || 3 * (end - renewedAt) < lease
    ensures committed < base + lease
  {}

  lemma OneMoreRenewal(lease: nat, claimed: Time, renewals: seq<Renewal>, x: Renewal)
    requires NeverLapses(lease, claimed, renewals) && x.committed < Base(claimed, renewals) + lease
    ensures NeverLapses(lease, claimed, renewals + [x])
  {
    var more := renewals + [x];
    forall j | 0 <= j < |more| ensures more[j].committed < Base(claimed, more[..j]) + lease {
      if j < |renewals| {
        assert more[..j] == renewals[..j] && more[j] == renewals[j];
      } else {
        assert more[..j] == renewals;
      }
    }
  }

  lemma NextPassInHand(lease: nat, poll: nat, delay: nat, trip: nat, claimed: Time, started: Time, ticks: seq<Tick>,
                       most: seq<Tick>, w: Watch, t: Tick)
    requires ticks != [] && most == ticks[..|ticks| - 1] && t == ticks[|ticks| - 1] && w == Passes(lease, started, most)
    requires Fits(lease, poll, delay, trip) && InHand(lease, trip, claimed, started, most)
    requires OnTime(lease, poll, delay, trip, started, ticks, |ticks| - 1)
    ensures InHand(lease, trip, claimed, started, ticks)
    ensures t.committed < Base(claimed, w.renewals) + lease
  {
    CommitsInTime(lease, poll, delay, trip, Base(claimed, w.renewals), w.renewedAt, PassEnd(lease, started, most),
                  t.committed);
    if Due(lease, w, t) {
      OneMoreRenewal(lease, claimed, w.renewals, Renewal(t.now, t.committed));
    }
  }

  lemma {:induction false} AlwaysInHand(lease: nat, poll: nat, delay: nat, trip: nat, claimed: Time, started: Time,
                                        ticks: seq<Tick>)
    requires Fits(lease, poll, delay, trip) && Punctual(lease, poll, delay, trip, claimed, started, ticks)
    ensures InHand(lease, trip, claimed, started, ticks)
  {
    if ticks != [] {
      var most := ticks[..|ticks| - 1];
      forall i | 0 <= i < |most| ensures OnTime(lease, poll, delay, trip, started, most, i) {
        assert OnTime(lease, poll, delay, trip, started, ticks, i);
        assert most[..i] == ticks[..i];
      }
      AlwaysInHand(lease, poll, delay, trip, claimed, started, most);
      NextPassInHand(lease, poll, delay, trip, claimed, started, ticks, most, Passes(lease, started, most),
                     ticks[|ticks| - 1]);
    }
  }

  /** When 3 * (poll + latency) <= 2 * lease, every renewal of a punctual loop commits before the lease
      in force expires, and at every check that lease is still running. */
  lemma RenewsBeforeExpiry(lease: nat, poll: nat, delay: nat, trip: nat, claimed: Time, started: Time,
                           ticks: seq<Tick>)
    requires Fits(lease, poll, delay, trip) && Punctual(lease, poll, delay, trip, claimed, started, ticks)
    ensures NeverLapses(lease, claimed, Passes(lease, started, ticks).renewals)
    ensures ticks != [] ==>
            ticks[|ticks| - 1].checked < Base(claimed, Passes(lease, started, ticks[..|ticks| - 1]).renewals) + lease
    ensures ticks != [] ==> ticks[|ticks| - 1].checked < Base(claimed, Passes(lease, started, ticks).renewals) + lease
  {
    AlwaysInHand(lease, poll, delay, trip, claimed, started, ticks);
    if ticks != [] {
      var most := ticks[..|ticks| - 1];
      assert OnTime(lease, poll, delay, trip, started, ticks, |ticks| - 1);
      forall i | 0 <= i < |most| ensures OnTime(lease, poll, delay, trip, started, most, i) {
        assert OnTime(lease, poll, delay, trip, started, ticks, i);
        assert most[..i] == ticks[..i];
      }
      AlwaysInHand(lease, poll, delay, trip, claimed, started, most);
      NextPassInHand(lease, poll, delay, trip, claimed, started, ticks, most, Passes(lease, started, most),
                     ticks[|ticks| - 1]);
    }
  }

  /** The settings' bounds on lease and poll are enough when there is no latency. */
  lemma SettingsFit(cfg: Config, poll: nat)
    requires ValidConfig(cfg) && poll <= 10 * SECOND
    ensures Fits(LeaseLength(cfg), poll, 0, 0)
  {}

  /** A punctual loop that commits a renewal after the lease it renews has expired: the first pass comes
      just before a third of the lease is over. */
  lemma SlowPollLapses(lease: nat, poll: nat, ticks: seq<Tick>)
    requires lease > 0 && 3 * poll > 2 * lease
    requires var early := (lease - 1) / 3;
             ticks == [Tick(early, early, early, early), Tick(early + poll, early + poll, early + poll, early + poll)]
    ensures Punctual(lease, poll, 0, 0, 0, 0, ticks) && !NeverLapses(lease, 0, Passes(lease, 0, ticks).renewals)
  {
    var early := (lease - 1) / 3;
    assert ticks[..1] == [ticks[0]] && ticks[..1][..0] == [] && ticks[..0] == [];
    assert Passes(lease, 0, ticks[..1]) == Watch(0, []);
    assert OnTime(lease, poll, 0, 0, 0, ticks, 0) && OnTime(lease, poll, 0, 0, 0, ticks, 1);
    var renewals := Passes(lease, 0, ticks).renewals;
    assert renewals == [] + [Renewal(early + poll, early + poll)];
    assert renewals[..0] == [];
    assert renewals[0].committed >= Base(0, renewals[..0]) + lease;
  }

  /** Two thirds is exact: without latency, every punctual loop keeps its lease if and only if the poll
      takes at most two thirds of it. */
  lemma TwoThirdsIsExact(lease: nat, poll: nat)
    requires lease > 0
    ensures (forall ticks :: Punctual(lease, poll, 0, 0, 0, 0, ticks) ==>
            NeverLapses(lease, 0, Passes(lease, 0, ticks).renewals))
            <==> 3 * poll <= 2 * lease
  {
    if 3 * poll <= 2 * lease {
      forall ticks | Punctual(lease, poll, 0, 0, 0, 0, ticks)
          ensures NeverLapses(lease, 0, Passes(lease, 0, ticks).renewals) {
        RenewsBeforeExpiry(lease, poll, 0, 0, 0, 0, ticks);
      }
    } else {
      var early := (lease - 1) / 3;
      var ticks := [Tick(early, early, early, early), Tick(early + poll, early + poll, early + poll, early + poll)];
      SlowPollLapses(lease, poll, ticks);
    }
  }

  // ---------------------------------------------------------------- what one step does to a held lease

  predicate Holds(run: Run, worker: WorkerId, expires: Time) {
    run.leaseOwner == Some(worker) && run.leaseExpires == Some(expires)
  }

  predicate LeaseKept(a: Run, b: Run) {
    Terminal(b.status) || (b.leaseOwner == a.leaseOwner && b.leaseExpires == a.leaseExpires)
  }

  lemma ExecKeepsLease(s: System, step: Step, r: RunId)
    requires IsExecStep(step) && r in s.db.runs
    ensures r in ExecStep(s, step).db.runs && LeaseKept(s.db.runs[r], ExecStep(s, step).db.runs[r])
  {
    if step.Conclude? && At(s, step.e, Answering) {
      ConcludeKeepsLease(s.db, s.execs[step.e].run, step.turn, step.now, r);
    } else if step.ConcludeFailed? && At(s, step.e, Answering) {
      FailKeepsLease(s.db, s.execs[step.e].run, step.code, step.now, r);
    } else if step.CancelRefused? && At(s, step.e, Refused) {
      CancelKeepsLease(s.db, s.execs[step.e].run, step.now, r);
    } else {
      WorkKeepsLease(s, step, r);
    }
  }

  lemma WorkKeepsLease(s: System, step: Step, r: RunId)
    requires IsExecStep(step) && r in s.db.runs
    requires step.Conclude? || step.ConcludeFailed? ==> !At(s, step.e, Answering)
    requires step.CancelRefused? ==> !At(s, step.e, Refused)
    ensures r in ExecStep(s, step).db.runs && LeaseKept(s.db.runs[r], ExecStep(s, step).db.runs[r])
  {}

  lemma ConcludeKeepsLease(db: Db, q: RunId, turn: Turn, now: Time, r: RunId)
    requires r in db.runs
    ensures r in ConcludeRun(db, q, turn, now).runs && LeaseKept(db.runs[r], ConcludeRun(db, q, turn, now).runs[r])
  {}

  lemma FailKeepsLease(db: Db, q: RunId, code: string, now: Time, r: RunId)
    requires r in db.runs
    ensures r in FailRun(db, q, code, now).runs && LeaseKept(db.runs[r], FailRun(db, q, code, now).runs[r])
  {}

  lemma CancelKeepsLease(db: Db, q: RunId, now: Time, r: RunId)
    requires r in db.runs
    ensures r in MarkCancelled(db, q, now).runs && LeaseKept(db.runs[r], MarkCancelled(db, q, now).runs[r])
  {}

  lemma RequestKeepsLease(db: Db, q: RunId, now: Time, r: RunId)
    requires r in db.runs
    ensures r in RequestCancellation(db, q, now).runs && LeaseKept(db.runs[r], RequestCancellation(db, q, now).runs[r])
  {}

  lemma RetryByOther(cfg: Config, db: Db, q: RunId, worker: WorkerId, code: string, now: Time, r: RunId)
    requires r in db.runs && (q == r ==> db.runs[r].leaseOwner != Some(worker))
    ensures r in ReleaseForRetry(cfg, db, q, worker, code, now).runs
    ensures ReleaseForRetry(cfg, db, q, worker, code, now).runs[r] == db.runs[r]
  {}

  lemma ClaimOfOthers(cfg: Config, db: Db, q: RunId, worker: WorkerId, skipped: set<RunId>, now: Time, r: RunId)
    requires r in db.runs && !Claimable(cfg, db.runs[r], now)
    ensures r in Claim(cfg, db, q, worker, skipped, now).runs
            && Claim(cfg, db, q, worker, skipped, now).runs[r] == db.runs[r]
  {}

  lemma ClaimStepOfOthers(cfg: Config, s: System, step: Step, after: System, r: RunId)
    requires step.ClaimNext? && after == Apply(cfg, s, step) && r in s.db.runs
             && !Claimable(cfg, s.db.runs[r], step.now)
    ensures r in after.db.runs && after.db.runs[r] == s.db.runs[r]
  {
    ClaimOfOthers(cfg, s.db, step.r, step.worker, step.skipped, step.now, r);
  }

  predicate RenewsIt(step: Step, r: RunId, worker: WorkerId) {
    step.RenewLease? && step.r == r && step.worker == worker
  }

  predicate GivesUp(step: Step, r: RunId, worker: WorkerId) {
    step.Retry? && step.r == r && step.worker == worker
  }

  lemma DispatchKeepsLease(cfg: Config, s: System, step: Step, after: System, r: RunId, worker: WorkerId)
    requires step.Retry? || step.CancelPolled? || step.RequestCancel?
    requires after == Apply(cfg, s, step) && r in s.db.runs
    requires s.db.runs[r].leaseOwner == Some(worker) && !GivesUp(step, r, worker)
    ensures r in after.db.runs && LeaseKept(s.db.runs[r], after.db.runs[r])
  {
    if step.Retry? {
      RetryByOther(cfg, s.db, step.r, step.worker, step.code, step.now, r);
    } else if step.CancelPolled? {
      CancelKeepsLease(s.db, step.r, step.now, r);
    } else {
      RequestKeepsLease(s.db, step.r, step.now, r);
    }
  }

  lemma ExecStepKeepsLease(cfg: Config, s: System, step: Step, after: System, r: RunId)
    requires IsExecStep(step) && after == Apply(cfg, s, step) && r in s.db.runs
    ensures r in after.db.runs && LeaseKept(s.db.runs[r], after.db.runs[r])
  {
    ApplyExec(cfg, s, step);
    ExecKeepsLease(s, step, r);
  }

  lemma ChangesOfHeld(cfg: Config, s: System, step: Step, after: System, r: RunId, worker: WorkerId)
    requires after == Apply(cfg, s, step) && r in s.db.runs && r in after.db.runs
    requires s.db.runs[r].leaseOwner == Some(worker) && !GivesUp(step, r, worker) && !step.RenewLease?
    requires step.ClaimNext? ==> !Claimable(cfg, s.db.runs[r], step.now)
    ensures LeaseKept(s.db.runs[r], after.db.runs[r])
  {
    if step.Create? {
      CreateStep(cfg, s, step, after);
    } else if IsExecStep(step) {
      ExecStepKeepsLease(cfg, s, step, after, r);
    } else if step.ClaimNext? {
      ClaimStepOfOthers(cfg, s, step, after, r);
    } else if step.Retry? || step.CancelPolled? || step.RequestCancel? {
      DispatchKeepsLease(cfg, s, step, after, r, worker);
    } else if step.SweepRuns? {
      SweepStep(cfg, s, step, after, r);
    } else {
      RestKeepsRuns(cfg, s, step, after);
    }
  }

  lemma RenewOther(cfg: Config, db: Db, q: RunId, worker: WorkerId, now: Time, r: RunId)
    requires r in db.runs && (q != r || !HoldsLease(db, r, worker))
    ensures r in Renew(cfg, db, q, worker, now).runs && Renew(cfg, db, q, worker, now).runs[r] == db.runs[r]
  {}

  lemma RenewOwn(cfg: Config, db: Db, r: RunId, worker: WorkerId, now: Time)
    requires HoldsLease(db, r, worker) && db.runs[r].status in {Dispatched, Working}
    ensures r in Renew(cfg, db, r, worker, now).runs
    ensures Holds(Renew(cfg, db, r, worker, now).runs[r], worker, now + LeaseLength(cfg))
  {}

  lemma RenewalOfHeld(cfg: Config, s: System, step: Step, after: System, r: RunId, worker: WorkerId, expires: Time)
    requires step.RenewLease? && after == Apply(cfg, s, step)
    requires r in s.db.runs && Holds(s.db.runs[r], worker, expires) && LeaseOk(cfg, s.db.runs[r])
    ensures r in after.db.runs
    ensures Holds(after.db.runs[r], worker, if RenewsIt(step, r, worker) then step.now + LeaseLength(cfg) else expires)
  {
    if RenewsIt(step, r, worker) {
      RenewOwn(cfg, s.db, r, worker, step.now);
    } else {
      RenewOther(cfg, s.db, step.r, step.worker, step.now, r);
    }
  }

  lemma {:induction false} SoundThroughout(cfg: Config, s: System, commits: seq<Commit>)
    requires Sound(cfg, s)
    ensures Sound(cfg, RunCommits(cfg, s, commits))
  {
    if commits != [] {
      var before := RunCommits(cfg, s, commits[..|commits| - 1]);
      SoundThroughout(cfg, s, commits[..|commits| - 1]);
      SoundStep(cfg, before, commits[|commits| - 1].step, RunCommits(cfg, s, commits));
    }
  }

  /** The run is over or swept, or the worker holds its lease until then. */
  ghost predicate Guarded(s: System, r: RunId, worker: WorkerId, expires: Time) {
    r in s.used && (r in s.db.runs ==> Terminal(s.db.runs[r].status) || Holds(s.db.runs[r], worker, expires))
  }

  /** A lease survives every step that comes before its expiry, unless the step ends the run or the
      worker itself gives the run up; its own renewal moves the expiry. */
  lemma GuardedOneStep(cfg: Config, s: System, step: Step, after: System, r: RunId, worker: WorkerId, expires: Time,
                       later: Time)
    requires Sound(cfg, s) && Guarded(s, r, worker, expires) && after == Apply(cfg, s, step)
    requires !GivesUp(step, r, worker) && (step.ClaimNext? ==> step.now < expires)
    requires later == if RenewsIt(step, r, worker) then step.now + LeaseLength(cfg) else expires
    ensures Guarded(after, r, worker, later)
  {
    UsedOnlyGrows(cfg, s, step, after);
    if r in after.db.runs {
      if r !in s.db.runs {
        NewRunIsUnstarted(cfg, s, step, after, r);
      } else if Terminal(s.db.runs[r].status) {
        TerminalIsAbsorbing(cfg, s, step, after, r);
      } else {
        assert RunOk(cfg, s.db.runs[r]);
        HeldOneStep(cfg, s, step, after, r, worker, expires, later);
      }
    }
  }

  lemma HeldOneStep(cfg: Config, s: System, step: Step, after: System, r: RunId, worker: WorkerId, expires: Time,
                    later: Time)
    requires after == Apply(cfg, s, step) && r in s.db.runs && r in after.db.runs
    requires LeaseOk(cfg, s.db.runs[r]) && Holds(s.db.runs[r], worker, expires)
    requires !GivesUp(step, r, worker) && (step.ClaimNext? ==> step.now < expires)
    requires later == if RenewsIt(step, r, worker) then step.now + LeaseLength(cfg) else expires
    ensures Terminal(after.db.runs[r].status) || Holds(after.db.runs[r], worker, later)
  {
    UnexpiredAtClaim(cfg, s.db.runs[r], step, worker, expires);
    if step.RenewLease? {
      RenewalOfHeld(cfg, s, step, after, r, worker, expires);
    } else {
      ChangesOfHeld(cfg, s, step, after, r, worker);
    }
  }

  lemma UnexpiredAtClaim(cfg: Config, run: Run, step: Step, worker: WorkerId, expires: Time)
    requires LeaseOk(cfg, run) && Holds(run, worker, expires) && (step.ClaimNext? ==> step.now < expires)
    ensures step.ClaimNext? ==> !Claimable(cfg, run, step.now)
  {}

  // ---------------------------------------------------------------- a live worker never loses its run

  /** A committed transaction and the moment it committed. */
  datatype Commit = Commit(step: Step, at: Time)

  predicate InOrder(commits: seq<Commit>) {
    && (forall i, j :: 0 <= i < j < |commits| ==> commits[i].at <= commits[j].at)
    && (forall i :: 0 <= i < |commits| && commits[i].step.ClaimNext? ==> commits[i].step.now <= commits[i].at)
  }

  function RenewalOf(c: Commit, r: RunId, worker: WorkerId): (result: seq<Renewal>) {
    if RenewsIt(c.step, r, worker) then [Renewal(c.step.now, c.at)] else []
  }

  /** The renewals of the run by the worker among the commits. */
  function RenewalsIn(commits: seq<Commit>, r: RunId, worker: WorkerId): (result: seq<Renewal>) {
    if commits == [] then []
    else RenewalsIn(commits[..|commits| - 1], r, worker) + RenewalOf(commits[|commits| - 1], r, worker)
  }

  /** The state after the commits: `Protocol.Run` over their steps. */
  ghost function RunCommits(cfg: Config, s: System, commits: seq<Commit>): (after: System) {
    if commits == [] then s
    else Apply(cfg, RunCommits(cfg, s, commits[..|commits| - 1]), commits[|commits| - 1].step)
  }

  function Steps(commits: seq<Commit>): (steps: seq<Step>) {
    if commits == [] then [] else Steps(commits[..|commits| - 1]) + [commits[|commits| - 1].step]
  }

  lemma {:induction false} RunCommitsIsRun(cfg: Config, s: System, commits: seq<Commit>)
    ensures RunCommits(cfg, s, commits) == Protocol.Run(cfg, s, Steps(commits))
  {
    if commits != [] {
      var most := commits[..|commits| - 1];
      RunCommitsIsRun(cfg, s, most);
      assert Steps(commits)[..|Steps(commits)| - 1] == Steps(most);
    }
  }

  lemma {:induction false} RenewalsSplit(commits: seq<Commit>, r: RunId, worker: WorkerId, i: nat)
    requires i <= |commits| && InOrder(commits)
    ensures RenewalsIn(commits[..i], r, worker) <= RenewalsIn(commits, r, worker)
    ensures var before, all := RenewalsIn(commits[..i], r, worker), RenewalsIn(commits, r, worker);
            i < |commits| && |before| < |all| ==> commits[i].at <= all[|before|].committed
  {
    if i == |commits| {
      assert commits[..i] == commits;
    } else {
      var n := |commits| - 1;
      assert commits[..n][..i] == commits[..i];
      RenewalsSplit(commits[..n], r, worker, i);
    }
  }

  /** While the loop lives the lease in force is unexpired at every commit. */
  lemma CommitsFallInside(lease: nat, claimed: Time, commits: seq<Commit>, r: RunId, worker: WorkerId, end: Time,
                          i: nat)
    requires InOrder(commits) && i < |commits| && commits[|commits| - 1].at <= end
    requires NeverLapses(lease, claimed, RenewalsIn(commits, r, worker))
    requires end < Base(claimed, RenewalsIn(commits, r, worker)) + lease
    ensures commits[i].at < Base(claimed, RenewalsIn(commits[..i], r, worker)) + lease
  {
    var before, all := RenewalsIn(commits[..i], r, worker), RenewalsIn(commits, r, worker);
    RenewalsSplit(commits, r, worker, i);
    if |before| < |all| {
      assert all[..|before|] == before;
    } else {
      assert before == all;
    }
  }

  lemma BaseLast(claimed: Time, commits: seq<Commit>, r: RunId, worker: WorkerId)
    requires commits != []
    ensures var c := commits[|commits| - 1];
            Base(claimed, RenewalsIn(commits, r, worker)) ==
            if RenewsIt(c.step, r, worker) then c.step.now
                else Base(claimed, RenewalsIn(commits[..|commits| - 1], r, worker))
  {}

  /** The step is not the worker giving up, nor a claim at or after this expiry. */
  predicate ComesInside(step: Step, r: RunId, worker: WorkerId, expires: Time) {
    !GivesUp(step, r, worker) && (step.ClaimNext? ==> step.now < expires)
  }

  /** Each commit comes inside the lease that the renewals before it left in force. */
  predicate AllInside(lease: nat, commits: seq<Commit>, r: RunId, worker: WorkerId, claimed: Time) {
    commits == [] ||
    (var most := commits[..|commits| - 1];
     && AllInside(lease, most, r, worker, claimed)
     && ComesInside(commits[|commits| - 1].step, r, worker, Base(claimed, RenewalsIn(most, r, worker)) + lease))
  }

  lemma {:induction false} GuardedThroughout(cfg: Config, s: System, commits: seq<Commit>, r: RunId, worker: WorkerId,
                                             claimed: Time, first: Time, after: System, expires: Time)
    requires Sound(cfg, s) && Guarded(s, r, worker, first) && first == claimed + LeaseLength(cfg)
    requires AllInside(LeaseLength(cfg), commits, r, worker, claimed)
    requires after == RunCommits(cfg, s, commits)
    requires expires == Base(claimed, RenewalsIn(commits, r, worker)) + LeaseLength(cfg)
    ensures Guarded(after, r, worker, expires)
  {
    if commits != [] {
      var most, c := commits[..|commits| - 1], commits[|commits| - 1];
      var before := RunCommits(cfg, s, most);
      var earlier := Base(claimed, RenewalsIn(most, r, worker)) + LeaseLength(cfg);
      GuardedThroughout(cfg, s, most, r, worker, claimed, first, before, earlier);
      SoundThroughout(cfg, s, most);
      BaseLast(claimed, commits, r, worker);
      GuardedOneStep(cfg, before, c.step, after, r, worker, earlier, expires);
    }
  }

  lemma {:induction false} InsideUpTo(lease: nat, commits: seq<Commit>, r: RunId, worker: WorkerId, claimed: Time,
                                      end: Time, n: nat)
    requires n <= |commits| && InOrder(commits) && (commits != [] ==> commits[|commits| - 1].at <= end)
    requires NeverLapses(lease, claimed, RenewalsIn(commits, r, worker))
    requires end < Base(claimed, RenewalsIn(commits, r, worker)) + lease
    requires forall i :: 0 <= i < |commits| ==> !GivesUp(commits[i].step, r, worker)
    ensures AllInside(lease, commits[..n], r, worker, claimed)
  {
    if n > 0 {
      InsideUpTo(lease, commits, r, worker, claimed, end, n - 1);
      CommitsFallInside(lease, claimed, commits, r, worker, end, n - 1);
      assert commits[..n][..n - 1] == commits[..n - 1];
    }
  }

  /** A punctual loop: its passes keep time, and the commits up to its latest check, its own renewals
      among them, never have the worker give the run up. */
  predicate LivesOn(lease: nat, commits: seq<Commit>, r: RunId, worker: WorkerId, claimed: Time, started: Time,
                    ticks: seq<Tick>, poll: nat, delay: nat, trip: nat) {
    && Fits(lease, poll, delay, trip) && Punctual(lease, poll, delay, trip, claimed, started, ticks)
    && ticks != [] && InOrder(commits)
    && (commits != [] ==> commits[|commits| - 1].at <= ticks[|ticks| - 1].checked)
    && RenewalsIn(commits, r, worker) == Passes(lease, started, ticks).renewals
    && (forall i :: 0 <= i < |commits| ==> !GivesUp(commits[i].step, r, worker))
  }

  lemma LivingStaysInside(lease: nat, commits: seq<Commit>, r: RunId, worker: WorkerId, claimed: Time, started: Time,
                          ticks: seq<Tick>, poll: nat, delay: nat, trip: nat)
    requires LivesOn(lease, commits, r, worker, claimed, started, ticks, poll, delay, trip)
    ensures AllInside(lease, commits, r, worker, claimed)
  {
    RenewsBeforeExpiry(lease, poll, delay, trip, claimed, started, ticks);
    InsideUpTo(lease, commits, r, worker, claimed, ticks[|ticks| - 1].checked, |commits|);
    assert commits[..|commits|] == commits;
  }

  lemma InsideKeepsRun(cfg: Config, s: System, commits: seq<Commit>, r: RunId, worker: WorkerId, claimed: Time,
                       expires: Time, after: System)
    requires Sound(cfg, s) && Guarded(s, r, worker, expires) && expires == claimed + LeaseLength(cfg)
    requires AllInside(LeaseLength(cfg), commits, r, worker, claimed) && after == Protocol.Run(cfg, s, Steps(commits))
    ensures r in after.db.runs && !Terminal(after.db.runs[r].status) ==> after.db.runs[r].leaseOwner == Some(worker)
  {
    RunCommitsIsRun(cfg, s, commits);
    GuardedThroughout(cfg, s, commits, r, worker, claimed, expires, after,
                      Base(claimed, RenewalsIn(commits, r, worker)) + LeaseLength(cfg));
  }

  /** A worker that claimed a run at `claimed` and polls punctually never loses it: whatever the other
      workers, clients and sweeps commit up to the loop's latest check, the run is either over or
      still leased to this worker. */
  lemma LiveWorkerKeepsRun(cfg: Config, s: System, commits: seq<Commit>, r: RunId, worker: WorkerId, claimed: Time,
                           started: Time, ticks: seq<Tick>, poll: nat, delay: nat, trip: nat, after: System)
    requires Sound(cfg, s) && Guarded(s, r, worker, claimed + LeaseLength(cfg))
    requires LivesOn(LeaseLength(cfg), commits, r, worker, claimed, started, ticks, poll, delay, trip)
    requires after == Protocol.Run(cfg, s, Steps(commits))
    ensures r in after.db.runs && !Terminal(after.db.runs[r].status) ==> after.db.runs[r].leaseOwner == Some(worker)
  {
    LivingStaysInside(LeaseLength(cfg), commits, r, worker, claimed, started, ticks, poll, delay, trip);
    InsideKeepsRun(cfg, s, commits, r, worker, claimed, claimed + LeaseLength(cfg), after);
  }

  /** A claim in any reachable state gives the worker a lease of full length. */
  lemma ClaimStartsLease(cfg: Config, s: System, claim: Step, after: System, expires: Time)
    requires Sound(cfg, s) && claim.ClaimNext? && expires == claim.now + LeaseLength(cfg) && claim.e !in s.execs
             && after == Apply(cfg, s, claim)
    requires SelectedForClaim(cfg, s.db, claim.r, claim.skipped, claim.now)
    ensures Sound(cfg, after) && Guarded(after, claim.r, claim.worker, expires)
  {
    SoundStep(cfg, s, claim, after);
    assert after.db.runs == s.db.runs[claim.r := ClaimedRow(cfg, s.db.runs[claim.r], claim.worker, claim.now)];
  }

  lemma ClaimStartsLeaseAlways(cfg: Config, accounts: map<UserId, Account>, steps: seq<Step>, s: System, claim: Step,
                               claimed: System, expires: Time)
    requires s == Protocol.Run(cfg, Fresh(accounts), steps) && claimed == Apply(cfg, s, claim)
    requires claim.ClaimNext? && claim.e !in s.execs && SelectedForClaim(cfg, s.db, claim.r, claim.skipped, claim.now)
    requires expires == claim.now + LeaseLength(cfg)
    ensures Sound(cfg, claimed) && Guarded(claimed, claim.r, claim.worker, expires)
  {
    SoundAlways(cfg, accounts, steps, s);
    ClaimStartsLease(cfg, s, claim, claimed, expires);
  }

  /** The whole story from an empty installation: any history, then a claim, then anything the others
      commit while the claiming worker polls punctually. */
  lemma ClaimedRunIsKept(
    cfg: Config, accounts: map<UserId, Account>, steps: seq<Step>, s: System, claim: Step, claimed: System,
    commits: seq<Commit>, started: Time, ticks: seq<Tick>, poll: nat, delay: nat, trip: nat, after: System)
    requires s == Protocol.Run(cfg, Fresh(accounts), steps) && claimed == Apply(cfg, s, claim)
    requires claim.ClaimNext? && claim.e !in s.execs && SelectedForClaim(cfg, s.db, claim.r, claim.skipped, claim.now)
    requires LivesOn(LeaseLength(cfg), commits, claim.r, claim.worker, claim.now, started, ticks, poll, delay, trip)
    requires after == Protocol.Run(cfg, claimed, Steps(commits))
    ensures claim.r in after.db.runs && !Terminal(after.db.runs[claim.r].status) ==>
              after.db.runs[claim.r].leaseOwner == Some(claim.worker)
  {
    var expires := claim.now + LeaseLength(cfg);
    ClaimStartsLeaseAlways(cfg, accounts, steps, s, claim, claimed, expires);
    LivingStaysInside(LeaseLength(cfg), commits, claim.r, claim.worker, claim.now, started, ticks, poll, delay, trip);
    InsideKeepsRun(cfg, claimed, commits, claim.r, claim.worker, claim.now, expires, after);
  }
}
