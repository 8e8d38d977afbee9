/** Events are only ever appended to a stored run's log, until a retention sweep removes them all a day
    after the run ended; what follows for a whole log and for the client that streams it. */
module LogGrowth {
  import opened Records
  import opened Transactions
  import opened Protocol
  import opened RunInvariants
  import opened RunTransitions
  import opened Stream

  /** Every step but the retention sweep leaves a stored run's log as it was or longer. */
  lemma LogOnlyGrows(cfg: Config, s: System, step: Step, after: System, r: RunId)
    requires RunsOk(cfg, s.db) && r in s.db.runs && !step.SweepRuns? && after == Apply(cfg, s, step)
    ensures r in after.db.runs && s.db.runs[r].log <= after.db.runs[r].log
  {
    StepIsTransition(cfg, s, step, after, r);
  }

  // ---------------------------------------------------------------- histories that do not scrub a run

  /** The sweep comes 24 hours or more after the run ended. */
  predicate Scrubs(s: System, step: Step, r: RunId) {
    && step.SweepRuns? && r in s.db.runs && Terminal(s.db.runs[r].status)
    && s.db.runs[r].updatedAt <= step.now - CONTENT_KEPT
  }

  ghost predicate Unscrubbed(cfg: Config, s: System, steps: seq<Step>, r: RunId) {
    steps == [] ||
    (&& Unscrubbed(cfg, s, steps[..|steps| - 1], r)
     && !Scrubs(Protocol.Run(cfg, s, steps[..|steps| - 1]), steps[|steps| - 1], r))
  }

  lemma GrowingStaysIntact(a: Run, b: Run)
    requires Grows(a, b) && Intact(a)
    ensures Intact(b)
  {}

  lemma UnscrubbedStep(cfg: Config, s: System, step: Step, after: System, r: RunId)
    requires RunsOk(cfg, s.db) && after == Apply(cfg, s, step) && !Scrubs(s, step, r)
    requires r in s.db.runs && r in after.db.runs
    ensures Grows(s.db.runs[r], after.db.runs[r])
  {
    if step.SweepRuns? {
      SweepStep(cfg, s, step, after, r);
    } else {
      StepIsTransition(cfg, s, step, after, r);
    }
  }

  lemma NewRunIsIntact(cfg: Config, req: Request, now: Time)
    ensures Intact(NewRun(cfg, req, now))
  {}

  /** Every event of a run is still there unless a sweep came a day or more after it ended. */
  lemma {:induction false} IntactUnlessScrubbed(cfg: Config, accounts: map<UserId, Account>, steps: seq<Step>,
                                                s: System, r: RunId)
    requires s == Protocol.Run(cfg, Fresh(accounts), steps) && Unscrubbed(cfg, Fresh(accounts), steps, r)
    ensures r in s.db.runs ==> Intact(s.db.runs[r])
  {
    if steps != [] {
      var most, step := steps[..|steps| - 1], steps[|steps| - 1];
      var before := Protocol.Run(cfg, Fresh(accounts), most);
      IntactUnlessScrubbed(cfg, accounts, most, before, r);
      SoundAlways(cfg, accounts, most, before);
      if r in s.db.runs {
        if r in before.db.runs {
          UnscrubbedStep(cfg, before, step, s, r);
          GrowingStaysIntact(before.db.runs[r], s.db.runs[r]);
        } else {
          NewRunIsUnstarted(cfg, before, step, s, r);
          NewRunIsIntact(cfg, step.req, step.now);
        }
      }
    }
  }

  /** Over every history in which no sweep came a day or more after the run ended, its log holds exactly
      one terminal event, of the type of its status, when the status is terminal, and none otherwise. */
  lemma LogTellsStatus(cfg: Config, accounts: map<UserId, Account>, steps: seq<Step>, s: System, r: RunId)
    requires s == Protocol.Run(cfg, Fresh(accounts), steps) && Unscrubbed(cfg, Fresh(accounts), steps, r)
             && r in s.db.runs
    ensures LogShowsStatus(s.db.runs[r])
  {
    IntactUnlessScrubbed(cfg, accounts, steps, s, r);
    RunsOkAlways(cfg, accounts, steps);
    OkShowsStatus(cfg, s.db.runs[r]);
  }

  lemma IntactIsContiguous(cfg: Config, run: Run)
    requires RunOk(cfg, run) && Intact(run)
    ensures Contiguous(run.log) && |run.log| == run.lastSequence
  {}

  /** On such histories the numbers of the log are exactly 1..lastSequence. */
  lemma SequencesAreExact(cfg: Config, accounts: map<UserId, Account>, steps: seq<Step>, s: System, r: RunId)
    requires s == Protocol.Run(cfg, Fresh(accounts), steps) && Unscrubbed(cfg, Fresh(accounts), steps, r)
             && r in s.db.runs
    ensures Contiguous(s.db.runs[r].log) && |s.db.runs[r].log| == s.db.runs[r].lastSequence
  {
    IntactUnlessScrubbed(cfg, accounts, steps, s, r);
    RunsOkAlways(cfg, accounts, steps);
    IntactIsContiguous(cfg, s.db.runs[r]);
  }

  /** An unfinished run is never scrubbed: all of its events are there in every reachable state. */
  lemma UnfinishedIsWhole(cfg: Config, accounts: map<UserId, Account>, steps: seq<Step>, s: System, r: RunId)
    requires s == Protocol.Run(cfg, Fresh(accounts), steps) && r in s.db.runs && !Terminal(s.db.runs[r].status)
    ensures Contiguous(s.db.runs[r].log) && |s.db.runs[r].log| == s.db.runs[r].lastSequence
  {
    RunsOkAlways(cfg, accounts, steps);
    assert RunOk(cfg, s.db.runs[r]);
    IntactIsContiguous(cfg, s.db.runs[r]);
  }

  // ---------------------------------------------------------------- streaming while the run goes on

  /** What was logged at an earlier moment is a prefix of what is logged later, as long as the run is
      stored. */
  lemma {:induction false} EarlierLogIsPrefix(cfg: Config, accounts: map<UserId, Account>, steps: seq<Step>, t: nat,
                                              early: System, late: System, r: RunId)
    requires t <= |steps| && Unscrubbed(cfg, Fresh(accounts), steps, r)
    requires early == Protocol.Run(cfg, Fresh(accounts), steps[..t])
             && late == Protocol.Run(cfg, Fresh(accounts), steps)
    requires r in early.db.runs
    ensures r in late.used && (r in late.db.runs ==> early.db.runs[r].log <= late.db.runs[r].log)
  {
    if t == |steps| {
      assert steps[..t] == steps;
      SoundAlways(cfg, accounts, steps, late);
    } else {
      var most, step := steps[..|steps| - 1], steps[|steps| - 1];
      assert most[..t] == steps[..t];
      var before := Protocol.Run(cfg, Fresh(accounts), most);
      EarlierLogIsPrefix(cfg, accounts, most, t, early, before, r);
      SoundAlways(cfg, accounts, most, before);
      SoundStep(cfg, before, step, late);
      if r in late.db.runs {
        if r in before.db.runs {
          UnscrubbedStep(cfg, before, step, late, r);
        } else {
          NewRunIsUnstarted(cfg, before, step, late, r);
        }
      }
    }
  }

  /** The reads of a connection: the run's log at moments of the history. */
  ghost predicate ReadsOf(cfg: Config, s: System, steps: seq<Step>, r: RunId, polls: seq<seq<Event>>) {
    forall k :: 0 <= k < |polls| ==> ReadAt(cfg, s, steps, r, polls[k])
  }

  ghost predicate ReadAt(cfg: Config, s: System, steps: seq<Step>, r: RunId, poll: seq<Event>) {
    exists t :: 0 <= t <= |steps| && WasLog(cfg, s, steps, t, r, poll)
  }

  ghost predicate WasLog(cfg: Config, s: System, steps: seq<Step>, t: nat, r: RunId, poll: seq<Event>)
    requires t <= |steps|
  {
    var db := Protocol.Run(cfg, s, steps[..t]).db;
    r in db.runs && poll == db.runs[r].log
  }

  lemma ReadIsPrefix(cfg: Config, accounts: map<UserId, Account>, steps: seq<Step>, r: RunId, poll: seq<Event>,
                     late: System)
    requires Unscrubbed(cfg, Fresh(accounts), steps, r) && late == Protocol.Run(cfg, Fresh(accounts), steps)
    requires r in late.db.runs && ReadAt(cfg, Fresh(accounts), steps, r, poll)
    ensures poll <= late.db.runs[r].log
  {
    var t :| 0 <= t <= |steps| && WasLog(cfg, Fresh(accounts), steps, t, r, poll);
    EarlierLogIsPrefix(cfg, accounts, steps, t, Protocol.Run(cfg, Fresh(accounts), steps[..t]), late, r);
  }

  /** Exactly-once delivery: whatever history goes on meanwhile, with sweeps at any time but a day after
      the run ended, and however often the client reconnects, it receives the run's log from event 1
      on without gap or repeat, and once it has a terminal event, all of it up to the first one. */
  lemma ClientReceivesTheLog(cfg: Config, accounts: map<UserId, Account>, steps: seq<Step>, late: System, r: RunId,
                             connections: seq<Connection>)
    requires Unscrubbed(cfg, Fresh(accounts), steps, r) && late == Protocol.Run(cfg, Fresh(accounts), steps)
    requires r in late.db.runs
    requires forall c :: c in connections ==> ReadsOf(cfg, Fresh(accounts), steps, r, c.polls)
    ensures var got, log := Received(connections, 0), late.db.runs[r].log;
            && Contiguous(got) && got <= UpToTerminal(log) && (Ended(got) ==> got == UpToTerminal(log))
  {
    var log := late.db.runs[r].log;
    SequencesAreExact(cfg, accounts, steps, late, r);
    forall c | c in connections ensures PrefixesOf(c.polls, log) {
      forall k | 0 <= k < |c.polls| ensures c.polls[k] <= log {
        ReadIsPrefix(cfg, accounts, steps, r, c.polls[k], late);
      }
    }
    ReconnectsAddUp(connections, log);
  }
}
