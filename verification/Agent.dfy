/** The durable steps of one execution, in their program order, over the stored tables. */
module Agent {
  import opened Records
  import opened Transactions
  import opened Protocol
  import Store

  /** The run is stored, has not ended, and nobody has asked it to stop. */
  predicate FitForWork(db: Db, r: RunId) {
    && r in db.runs && db.runs[r].status !in {Completed, Failed, Cancelled, Terminated}
    && db.runs[r].cancelRequested.None?
  }

  /** What the three transactions of `mark_working` do when nothing comes between them. */
  ghost function WorkMarked(db: Db, r: RunId, now: Time): (after: Db) {
    if CanStartWork(db, r)
        then AddEvent(Charge(SetWorking(db, r, now), r), r, StatusChanged("thinking", "Thinking", None), now)
    else MarkCancelled(db, r, now)
  }

  /** Set the status, then charge, then announce; a run that may not start is cancelled instead. */
  method MarkWorking(db: Store.Database, r: RunId, now: Time) returns (started: bool)
    requires db.Valid()
    modifies db
    ensures db.Valid() && db.State() == WorkMarked(old(db.State()), r, now)
    ensures started == CanStartWork(old(db.State()), r)
    ensures started <==> FitForWork(old(db.State()), r)
    ensures started ==> r in db.runs && db.runs[r].status == Working
    ensures !started && r in old(db.runs) ==>
            r in db.runs && db.runs[r].status in {Completed, Failed, Cancelled, Terminated}
    ensures r in old(db.ledger) ==>
              r in db.ledger && db.ledger[r].status ==
              if started && old(db.ledger)[r].status == Reserved then Charged else old(db.ledger)[r].status
  {
    started := db.SetWorking(r, now);
    if !started {
      var _ := db.MarkRunCancelled(r, now);
      return;
    }
    db.ChargeAllowance(r);
    var _ := db.AddEvent(r, StatusChanged("thinking", "Thinking", None), now);
  }

  /** Builds the closing events of a turn one by one and finishes the run with them. */
  method PersistTurnResult(db: Store.Database, r: RunId, messageId: MessageId, turn: Turn, now: Time)
    requires db.Valid() && (r in db.runs ==> db.runs[r].message == messageId)
    modifies db
    ensures db.Valid() && db.State() == ConcludeRun(old(db.State()), r, turn, now)
  {
    var marked := Some((messageId, TurnAction(turn)));
    if turn.TerminateTurn? {
      var _ := db.FinalizeRun(r, Terminated, [ConversationTerminated], marked, None, None, now);
      return;
    }
    var events := [];
    if turn.ArchiveTurn? {
      events := events + [ArchiveUnavailable(ARCHIVES_COPY)];
    }
    var title := turn.title;
    if title.Some? && title.value != [] {
      events := events + [ConversationTitled(title.value)];
    }
    events := events + [RunCompleted];
    assert events == TurnEvents(turn);
    var answer := if turn.ArchiveTurn? then ARCHIVES_COPY else turn.text;
    var _ := db.FinalizeRun(r, Completed, events, marked, Some(answer), None, now);
  }

  method PersistFailure(db: Store.Database, r: RunId, code: string, now: Time)
    requires db.Valid()
    modifies db
    ensures db.Valid() && db.State() == FailRun(old(db.State()), r, code, now)
  {
    var _ := db.FinalizeRun(r, Failed, [RunFailed(code, UNREACHABLE_COPY)], None, None, Some(code), now);
  }

  /** The system's three steps of an execution, taken in a row, are `mark_working` run alone. */
  lemma StepsAreMarkWorking(cfg: Config, s: System, e: ExecId, now: Time)
    requires At(s, e, AtStart) && FitForWork(s.db, s.execs[e].run)
    ensures var r := s.execs[e].run;
            var s1 := Apply(cfg, s, Begin(e, now));
            var s2 := Apply(cfg, s1, ChargeRun(e));
            var s3 := Apply(cfg, s2, AnnounceThinking(e, now));
            s3.db == WorkMarked(s.db, r, now) && At(s3, e, Answering) && r in s3.checkpoints
  {
    var s1 := Apply(cfg, s, Begin(e, now));
    assert At(s1, e, StatusSet) && s1.execs[e].run == s.execs[e].run;
    var s2 := Apply(cfg, s1, ChargeRun(e));
    assert At(s2, e, ChargeDone) && s2.execs[e].run == s.execs[e].run;
  }

  /** A run that may not start is refused and then cancelled. */
  lemma StepsRefuse(cfg: Config, s: System, e: ExecId, now: Time)
    requires At(s, e, AtStart) && !FitForWork(s.db, s.execs[e].run)
    ensures var s1 := Apply(cfg, s, Begin(e, now));
            var s2 := Apply(cfg, s1, CancelRefused(e, now));
            s2.db == WorkMarked(s.db, s.execs[e].run, now) && At(s2, e, Over)
  {
    assert At(Apply(cfg, s, Begin(e, now)), e, Refused);
  }

  /** Marking a run as working charges its unit, unless it was not reserved, in the same transaction. */
  lemma MarkWorkingCharges(db: Db, r: RunId, now: Time)
    requires FitForWork(db, r) && r in db.ledger
    ensures WorkMarked(db, r, now).ledger[r].status ==
            if db.ledger[r].status == Reserved then Charged else db.ledger[r].status
    ensures WorkMarked(db, r, now).runs[r].status == Working
  {}
}
