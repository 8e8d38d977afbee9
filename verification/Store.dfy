/** The transactions as the service runs them: reading rows, assigning fields, locking as they go.

    Each method is one transaction, or a part of one, and is proved to take the tables to the state
    that the module Transactions defines. A refusal rolls the tables back. */
module Store {
  import opened Records
  import opened Transactions
  import opened RunInvariants
  import opened Locks
  import opened AnswerRecords
  import Allowances
  import QuotaSafety
  import ClaimOrder

  lemma NextEvent(run: Run, bodies: seq<Body>, i: nat, now: Time)
    requires i < |bodies|
    ensures var part := AppendEvents(run, bodies[..i], now);
            AppendEvents(run, bodies[..i + 1], now) ==
            part.(lastSequence := part.lastSequence + 1,
                  log := part.log + [Event(part.lastSequence + 1, bodies[i], now)])
  {
    var part := AppendEvents(run, bodies[..i], now);
    var e := Event(part.lastSequence + 1, bodies[i], now);
    assert NumberedEvents(run.lastSequence + 1, bodies[..i + 1], now) ==
           NumberedEvents(run.lastSequence + 1, bodies[..i], now) + [e];
    assert run.log + NumberedEvents(run.lastSequence + 1, bodies[..i + 1], now) == part.log + [e];
  }

  lemma NoEvents(run: Run, bodies: seq<Body>, now: Time)
    ensures AppendEvents(run, bodies[..0], now) == run
  {
    assert run.log + NumberedEvents(run.lastSequence + 1, bodies[..0], now) == run.log;
  }

  /** The next number of a run's log, from the stored events and the run's own counter. */
  method AllocateEventSequence(run: Run) returns (sequence: nat)
    requires Numbered(run)
    ensures sequence == run.lastSequence + 1
  {
    AllocatorsAgree(run);
    var persistedMax := MaxSequence(run.log);
    sequence := Max(run.lastSequence, persistedMax) + 1;
  }

  /** Appends the bodies one by one, allocating each number. */
  method AppendAll(run: Run, bodies: seq<Body>, now: Time) returns (next: Run)
    requires Numbered(run)
    ensures next == AppendEvents(run, bodies, now) && Numbered(next)
  {
    next := run;
    NoEvents(run, bodies, now);
    for i := 0 to |bodies|
      invariant next == AppendEvents(run, bodies[..i], now) && Numbered(next)
    {
      var sequence := AllocateEventSequence(next);
      NextEvent(run, bodies, i, now);
      AppendKeepsNumbers(run, bodies[..i + 1], now);
      next := next.(lastSequence := sequence, log := next.log + [Event(sequence, bodies[i], now)]);
    }
    assert bodies[..|bodies|] == bodies;
  }

  /** The title a conversation is left with by the titled events of a list. */
  method Retitle(c: Conversation, bodies: seq<Body>) returns (next: Conversation)
    ensures var title := LastTitle(bodies);
            next == c.(title := if title.Some? then Clip(title.value, 80) else c.title,
                       titleGenerated := c.titleGenerated || title.Some?)
  {
    next := c;
    for i := 0 to |bodies|
      invariant var title := LastTitle(bodies[..i]);
                next == c.(title := if title.Some? then Clip(title.value, 80) else c.title,
                           titleGenerated := c.titleGenerated || title.Some?)
    {
      assert bodies[..i + 1][..i] == bodies[..i];
      if bodies[i].ConversationTitled? {
        next := next.(title := Clip(bodies[i].title, 80), titleGenerated := true);
      }
    }
    assert bodies[..|bodies|] == bodies;
  }

  /** The conversation row after a run has ended in it. */
  method Touch(c: Conversation, status: Status, bodies: seq<Body>, now: Time) returns (next: Conversation)
    ensures next == TouchConversation(c, status, bodies, now)
  {
    next := c;
    if status == Terminated {
      next := next.(terminated := true);
    }
    next := Retitle(next, bodies);
    next := next.(updatedAt := now);
    next := next.(revision := next.revision + 1);
  }

  /** The run row once it has ended, before its closing events. */
  method FinishRow(run: Run, status: Status, answer: Option<Text>, error: Option<string>, now: Time) returns (next: Run)
    ensures next == FinishedRow(run, status, answer, error, now)
  {
    next := run.(status := status, updatedAt := now);
    next := next.(leaseOwner := None, leaseExpires := None);
    if answer.Some? {
      next := next.(answer := answer);
    }
    if error.Some? {
      next := next.(error := error);
    }
  }

  /** The conversation row under an upload; an active termination outweighs the upload's flag. */
  method Overwrite(c: Conversation, body: Write, terminationActive: bool, now: Time) returns (row: Conversation)
    ensures row ==
            Conversation(c.owner, body.title, body.titleGenerated, body.pinned, body.terminated || terminationActive,
                                c.revision + 1, Max(body.updatedAt, now))
  {
    row := c.(title := body.title, titleGenerated := body.titleGenerated, pinned := body.pinned);
    row := row.(terminated := body.terminated || terminationActive);
    row := row.(updatedAt := Max(body.updatedAt, now), revision := row.revision + 1);
  }

  // ---------------------------------------------------------------- counters

  function DecrementOne(counters: map<CounterKey, nat>, k: CounterKey): (result: map<CounterKey, nat>) {
    if k in counters then counters[k := Less(counters[k])] else counters
  }

  lemma DecrementNone(counters: map<CounterKey, nat>)
    ensures Decrement(counters, {}) == counters
  {}

  lemma DecrementMore(counters: map<CounterKey, nat>, keys: set<CounterKey>, k: CounterKey)
    requires k !in keys
    ensures DecrementOne(Decrement(counters, keys), k) == Decrement(counters, keys + {k})
  {}

  function KeyOf(s: Option<CounterKey>): (result: set<CounterKey>) {
    if s.Some? then {s.value} else {}
  }

  /** The keys among the first n of these. */
  function KeysAmong(signals: seq<Option<CounterKey>>, n: nat): (result: set<CounterKey>)
    requires n <= |signals|
  {
    if n == 0 then {} else KeysAmong(signals, n - 1) + KeyOf(signals[n - 1])
  }

  lemma KeysAmongNext(signals: seq<Option<CounterKey>>, n: nat)
    requires n < |signals|
    ensures KeysAmong(signals, n + 1) == KeysAmong(signals, n) + KeyOf(signals[n])
    ensures signals[n].None? ==> KeysAmong(signals, n + 1) == KeysAmong(signals, n)
  {}

  lemma TwoSignals(device: Option<Digest>, ip: Option<Digest>, day: int)
    ensures KeysAmong([if device.Some? then Some(DeviceKey(device.value, day)) else None,
                       if ip.Some? then Some(IpKey(ip.value, day)) else None], 2) == SignalKeys(device, ip, day)
  {
    var signals := [if device.Some? then Some(DeviceKey(device.value, day)) else None,
                    if ip.Some? then Some(IpKey(ip.value, day)) else None];
    assert KeysAmong(signals, 0) == {};
    assert KeysAmong(signals, 1) == KeyOf(signals[0]);
  }

  function Zeroed(counters: map<CounterKey, nat>, keys: set<CounterKey>): (result: map<CounterKey, nat>) {
    map k | k in counters.Keys + keys :: Count(counters, k)
  }

  lemma ZeroedMore(counters: map<CounterKey, nat>, keys: set<CounterKey>, k: CounterKey)
    ensures var z := Zeroed(counters, keys);
            (if k in z then z else z[k := 0]) == Zeroed(counters, keys + {k})
  {}

  /** The counters with the first keys raised by one. */
  function Raised(counters: map<CounterKey, nat>, all: set<CounterKey>, done: set<CounterKey>)
    : (result: map<CounterKey, nat>)
  {
    map k | k in counters.Keys + all :: Count(counters, k) + (if k in done then 1 else 0)
  }

  lemma RaisedMore(counters: map<CounterKey, nat>, all: set<CounterKey>, done: set<CounterKey>, k: CounterKey)
    requires k in all && k !in done
    ensures var m := Raised(counters, all, done);
            k in m && m[k := m[k] + 1] == Raised(counters, all, done + {k})
  {}

  lemma RaisedEnds(counters: map<CounterKey, nat>, all: set<CounterKey>)
    ensures Raised(counters, all, {}) == Zeroed(counters, all)
    ensures Raised(counters, all, all) == Increment(counters, all)
  {}

  function Listed(keys: seq<CounterKey>, n: nat): (result: set<CounterKey>)
    requires n <= |keys|
  {
    set i | 0 <= i < n :: keys[i]
  }

  /** The list holds each key of the set once. */
  predicate Lists(keys: seq<CounterKey>, all: set<CounterKey>) {
    && Listed(keys, |keys|) == all
    && forall i, j :: 0 <= i < j < |keys| ==> keys[i] != keys[j]
  }

  lemma ListsMore(keys: seq<CounterKey>, all: set<CounterKey>, k: CounterKey)
    requires Lists(keys, all) && k !in all
    ensures Lists(keys + [k], all + {k})
  {
    var more := keys + [k];
    forall i, j | 0 <= i < j < |more| ensures more[i] != more[j] {
      assert more[i] == keys[i] && keys[i] in Listed(keys, |keys|);
    }
    forall x ensures x in Listed(more, |more|) <==> x in all + {k} {
      if x in all {
        var i :| 0 <= i < |keys| && keys[i] == x;
        assert more[i] == x;
      }
      if x == k { assert more[|keys|] == x; }
    }
  }

  lemma ListedNext(keys: seq<CounterKey>, i: nat)
    requires i < |keys| && forall i, j :: 0 <= i < j < |keys| ==> keys[i] != keys[j]
    ensures keys[i] in Listed(keys, |keys|) && keys[i] !in Listed(keys, i)
            && Listed(keys, i + 1) == Listed(keys, i) + {keys[i]}
  {}

  /** Adds one to each of the listed counters, the service's having been raised already. */
  method RaiseEach(counters: map<CounterKey, nat>, signals: seq<CounterKey>, ghost before: map<CounterKey, nat>,
                   ghost both: set<CounterKey>, ghost service: CounterKey) returns (raised: map<CounterKey, nat>)
    requires counters == Raised(before, both + {service}, {service}) && service !in both && Lists(signals, both)
    ensures raised == Increment(before, both + {service})
  {
    ghost var all := both + {service};
    raised := counters;
    for i := 0 to |signals|
      invariant raised == Raised(before, all, {service} + Listed(signals, i))
    {
      ListedNext(signals, i);
      RaisedMore(before, all, {service} + Listed(signals, i), signals[i]);
      assert ({service} + Listed(signals, i)) + {signals[i]} == {service} + Listed(signals, i + 1);
      raised := raised[signals[i] := raised[signals[i]] + 1];
    }
    RaisedEnds(before, all);
    assert {service} + Listed(signals, |signals|) == all;
  }

  // ---------------------------------------------------------------- facts about the specification

  lemma AssessIgnoresConversations(cfg: Config, a: Db, b: Db, u: UserId, device: Option<Digest>, ip: Option<Digest>,
                                   now: Time)
    requires b == a.(conversations := b.conversations, messages := b.messages)
    ensures Assess(cfg, a, u, device, ip, now) == Assess(cfg, b, u, device, ip, now)
  {}

  /** What an upload leaves in the message table, or None when a key is taken. */
  function Reinserted(db: Db, c: ConversationId, u: UserId, body: Write)
    : (result: Option<map<MessageId, MessageRecord>>)
  {
    Reinsert(if c in db.conversations then WithoutConversation(db.messages, c) else db.messages, body.messages, c, u)
  }

  lemma {:induction false} ReinsertFails(messages: map<MessageId, MessageRecord>, uploaded: seq<StoredMessage>,
                                         c: ConversationId, u: UserId, n: nat)
    requires n <= |uploaded| && Reinsert(messages, uploaded[..n], c, u).None?
    ensures Reinsert(messages, uploaded, c, u).None?
    decreases |uploaded| - n
  {
    if n == |uploaded| {
      assert uploaded[..n] == uploaded;
    } else {
      assert uploaded[..n + 1][..n] == uploaded[..n];
      ReinsertFails(messages, uploaded, c, u, n + 1);
    }
  }

  function ExpiredOf(runs: map<RunId, Run>, now: Time): (result: set<RunId>) {
    set r | r in runs && Expired(runs[r], now)
  }

  function MessagesOf(runs: map<RunId, Run>, some: set<RunId>): (result: set<MessageId>) {
    set r | r in some && r in runs :: runs[r].message
  }

  function ScrubAll(runs: map<RunId, Run>, now: Time): (result: map<RunId, Run>) {
    map r | r in runs :: Scrubbed(runs[r], now)
  }

  lemma ScrubbingKeepsExpiry(runs: map<RunId, Run>, now: Time)
    ensures ExpiredOf(ScrubAll(runs, now), now) == ExpiredOf(runs, now)
    ensures MessagesOf(ScrubAll(runs, now), ExpiredOf(runs, now)) == MessagesOf(runs, ExpiredOf(runs, now))
  {
    forall r ensures r in ExpiredOf(ScrubAll(runs, now), now) <==> r in ExpiredOf(runs, now) {}
    var some := ExpiredOf(runs, now);
    forall m ensures m in MessagesOf(ScrubAll(runs, now), some) <==> m in MessagesOf(runs, some) {
      if m in MessagesOf(runs, some) {
        var r :| r in some && r in runs && runs[r].message == m;
        assert ScrubAll(runs, now)[r].message == m;
      }
    }
  }

  lemma ScrubbingKeepsNumbers(runs: map<RunId, Run>, now: Time)
    requires forall r :: r in runs ==> Numbered(runs[r])
    ensures forall r :: r in ScrubAll(runs, now) ==> Numbered(ScrubAll(runs, now)[r])
  {}

  lemma PurgedAre(runs: map<RunId, Run>, now: Time)
    ensures runs.Keys - (ScrubAll(runs, now) - ExpiredOf(runs, now)).Keys == ExpiredOf(runs, now)
    ensures (ScrubAll(runs, now) - ExpiredOf(runs, now)).Keys <= ScrubAll(runs, now).Keys
  {}

  lemma DropNone(runs: map<RunId, Run>, controls: map<MessageId, Control>, ids: set<MessageId>)
    requires ids == {}
    ensures runs - {} == runs && controls - ids == controls
  {}

  lemma PurgeSpelledOut(db: Db, now: Time)
    ensures PurgeRuns(db, now) == db.(runs := ScrubAll(db.runs, now) - ExpiredOf(db.runs, now),
                                      controls := db.controls - MessagesOf(db.runs, ExpiredOf(db.runs, now)))
  {
    assert PurgeRuns(db, now).runs == ScrubAll(db.runs, now) - ExpiredOf(db.runs, now);
    assert MessagesOf(db.runs, ExpiredOf(db.runs, now)) == set r | r in db.runs
           && Expired(db.runs[r], now) :: db.runs[r].message;
  }

  /** What a user's part of a create does, or why it is refused. */
  ghost function Admission(cfg: Config, db: Db, r: RunId, u: UserId, req: Request, now: Time): (Db, Option<Outcome>) {
    match EnterConversation(db.conversations, db.messages, u, req, now)
    case EntryNotFound => (db, Some(RefusedNotFound))
    case EntryConflict => (db, Some(Conflict))
    case Entered(cs, ms) =>
      match Assess(cfg, db, u, req.device, req.ip, now)
      case QuotaExceeded => (db, Some(RefusedQuota))
      case TooManyRuns => (db, Some(RefusedConcurrent))
      case Admit => (Reserve(db.(conversations := cs, messages := ms), u, r, req.device, req.ip, now), None)
  }

  ghost function Inserted(cfg: Config, db: Db, admitted: Db, r: RunId, req: Request, ordinal: nat, now: Time)
    : (end: (Db, Outcome))
  {
    if InsertConflict(db, r, req, ordinal) then (db, Conflict)
        else (InsertRun(cfg, admitted, r, req, ordinal, now), Created)
  }

  /** The end of a create, once it is known whether the sender is admitted. */
  ghost function Settle(cfg: Config, db: Db, entry: (Db, Option<Outcome>), r: RunId, req: Request, ordinal: nat,
                        now: Time): (Db, Outcome) {
    if entry.1.Some? then (db, entry.1.value) else Inserted(cfg, db, entry.0, r, req, ordinal, now)
  }

  predicate AllowedToday(cfg: Config, db: Db, u: UserId, day: int) {
    u in db.accounts && db.accounts[u].active && |LiveOf(db.ledger, u, day)| < DailyLimit(cfg, db, u, day)
  }

  predicate SomeCounterFull(cfg: Config, counters: map<CounterKey, nat>, device: Option<Digest>, ip: Option<Digest>,
                            day: int) {
    SignalFull(cfg, counters, device, ip, day) || Count(counters, ServiceKey(day)) >= cfg.serviceLimit
  }

  /** The checks of a reservation in three stages. */
  lemma AssessStops(cfg: Config, db: Db, u: UserId, device: Option<Digest>, ip: Option<Digest>, now: Time)
    ensures Assess(cfg, db, u, device, ip, now) ==
            if !AllowedToday(cfg, db, u, Day(now))
                || SomeCounterFull(cfg, db.counters, device, ip, Day(now)) then QuotaExceeded
            else if |ActiveRuns(db.runs, u)| >= cfg.maxConcurrent then TooManyRuns else Admit
  {}

  lemma ReserveIs(db: Db, after: Db, u: UserId, r: RunId, device: Option<Digest>, ip: Option<Digest>, now: Time)
    requires after == db.(ledger := after.ledger, counters := after.counters)
    requires after.ledger == db.ledger[r := LedgerEntry(u, device, ip, Day(now), Reserved, now)]
    requires after.counters == Increment(db.counters, SignalKeys(device, ip, Day(now)) + {ServiceKey(Day(now))})
    ensures after == Reserve(db, u, r, device, ip, now)
  {}

  lemma CreateForUserIsAdmission(cfg: Config, db: Db, r: RunId, u: UserId, req: Request, ordinal: nat, now: Time)
    ensures CreateForUser(cfg, db, r, u, req, ordinal, now) ==
            Settle(cfg, db, Admission(cfg, db, r, u, req, now), r, req, ordinal, now)
  {}

  ghost function Admitted(cfg: Config, db: Db, r: RunId, req: Request, now: Time): (Db, Option<Outcome>) {
    if req.owner.Some? then Admission(cfg, db, r, req.owner.value, req, now) else (db, None)
  }

  lemma AdmittedKeepsRuns(cfg: Config, db: Db, r: RunId, req: Request, now: Time)
    ensures Admitted(cfg, db, r, req, now).0.runs == db.runs
    ensures Admitted(cfg, db, r, req, now).1 != Some(Created)
  {}

  lemma CreateOwned(cfg: Config, db: Db, r: RunId, req: Request, now: Time, ordinal: nat)
    requires ordinal == NextControl(db, req) && req.owner.Some?
    ensures CreateNew(cfg, db, r, req, now) == CreateForUser(cfg, db, r, req.owner.value, req, ordinal, now)
  {}

  lemma CreateAnonymous(cfg: Config, db: Db, r: RunId, req: Request, now: Time, ordinal: nat)
    requires ordinal == NextControl(db, req) && req.owner.None?
    ensures CreateNew(cfg, db, r, req, now) == Inserted(cfg, db, db, r, req, ordinal, now)
  {}

  /** A create is an admission followed by the insertion of the rows. */
  lemma CreateNewIs(cfg: Config, db: Db, r: RunId, req: Request, now: Time, ordinal: nat,
                    entry: (Db, Option<Outcome>), end: (Db, Outcome))
    requires ordinal == NextControl(db, req)
    requires entry == Admitted(cfg, db, r, req, now) && end == CreateNew(cfg, db, r, req, now)
    ensures end == Settle(cfg, db, entry, r, req, ordinal, now)
  {
    if req.owner.Some? {
      CreateOwned(cfg, db, r, req, now, ordinal);
      CreateForUserIsAdmission(cfg, db, r, req.owner.value, req, ordinal, now);
    } else {
      CreateAnonymous(cfg, db, r, req, now, ordinal);
    }
  }

  // ---------------------------------------------------------------- the tables

  class Database {
    const cfg: Config
    var runs: map<RunId, Run>
    var ledger: map<RunId, LedgerEntry>
    var counters: map<CounterKey, nat>
    var accounts: map<UserId, Account>
    var grants: map<(UserId, int), nat>
    var conversations: map<ConversationId, Conversation>
    var messages: map<MessageId, MessageRecord>
    var controls: map<MessageId, Control>
    var locked: seq<Row>   // rows the current transaction has locked by name, in order

    function State(): (after: Db)
      reads this
    {
      Db(runs, ledger, counters, accounts, grants, conversations, messages, controls)
    }

    /** Every stored run is numbered: an invariant of all reachable states. */
    ghost predicate Valid()
      reads this
    {
      forall r :: r in runs ==> Numbered(runs[r])
    }

    ghost predicate LockedBelow(rank: nat)
      reads this
    {
      Ascending(locked) && forall i :: 0 <= i < |locked| ==> Rank(locked[i]) < rank
    }

    constructor (cfg: Config, accounts: map<UserId, Account>)
      ensures this.cfg == cfg && Valid() && locked == []
      ensures State() == Db(map[], map[], map[], accounts, map[], map[], map[], map[])
    {
      this.cfg := cfg;
      this.accounts := accounts;
      runs, ledger, counters, grants := map[], map[], map[], map[];
      conversations, messages, controls, locked := map[], map[], map[], [];
    }

    method Lock(row: Row)
      requires LockedBelow(Rank(row))
      modifies this`locked
      ensures locked == old(locked) + [row] && LockedBelow(Rank(row) + 1)
    {
      locked := locked + [row];
    }

    method Rollback(saved: Db)
      modifies this
      ensures State() == saved && locked == old(locked)
    {
      runs, ledger, counters, accounts := saved.runs, saved.ledger, saved.counters, saved.accounts;
      grants, conversations, messages, controls := saved.grants, saved.conversations, saved.messages, saved.controls;
    }

    // -------------------------------------------------------------- events and status

    method AddEvent(r: RunId, body: Body, now: Time) returns (sequence: Option<nat>)
      requires Valid()
      modifies this
      ensures Valid() && LockedBelow(8)
      ensures State() == Transactions.AddEvent(old(State()), r, body, now)
      ensures sequence == if r in old(runs) then Some(old(runs)[r].lastSequence + 1) else None
    {
      locked := [];
      if r !in runs {
        return None;
      }
      Lock(RunRow(r));
      var run := AppendAll(runs[r], [body], now);
      runs := runs[r := run];
      return Some(run.lastSequence);
    }

    method SetWorking(r: RunId, now: Time) returns (started: bool)
      requires Valid()
      modifies this
      ensures Valid() && LockedBelow(8)
      ensures State() == Transactions.SetWorking(old(State()), r, now)
      ensures started == CanStartWork(old(State()), r)
      ensures started <==> && r in old(runs) && old(runs)[r].cancelRequested.None?
                           && old(runs)[r].status !in {Completed, Failed, Cancelled, Terminated}
      ensures State() == old(State()).(
                           runs := if started then old(runs)[r := old(runs)[r].(status := Working, updatedAt := now)]
                                   else old(runs))
    {
      locked := [];
      if r !in runs {
        return false;
      }
      Lock(RunRow(r));
      var run := runs[r];
      if Terminal(run.status) || run.cancelRequested.Some? {
        return false;
      }
      run := run.(status := Working);
      run := run.(updatedAt := now);
      runs := runs[r := run];
      return true;
    }

    /** Stores a run row with these events appended to its log. */
    method StoreWith(r: RunId, run: Run, bodies: seq<Body>, now: Time)
      requires Valid() && Numbered(run)
      modifies this`runs
      ensures Valid() && runs == old(runs)[r := AppendEvents(run, bodies, now)]
    {
      var next := AppendAll(run, bodies, now);
      runs := runs[r := next];
    }

    /** `coalesce(max(ordinal), 0)` over a conversation's stored messages. */
    method MaxOrdinal(c: ConversationId) returns (top: nat)
      ensures top == MaxOf(ConversationOrdinals(messages, c))
    {
      top := 0;
      ghost var all := ConversationOrdinals(messages, c);
      var todo := messages.Keys;
      while todo != {}
        invariant todo <= messages.Keys
        invariant top == 0 || top in all
        invariant forall m :: m in messages && m !in todo && messages[m].conversation == c ==>
                  messages[m].ordinal <= top
        decreases |todo|
      {
        var m :| m in todo;
        todo := todo - {m};
        if messages[m].conversation == c && messages[m].ordinal > top {
          top := messages[m].ordinal;
        }
      }
    }

    /** Writes the answer into the run's own message, which it creates if need be. */
    method StoreAnswerMessage(run: Run, answer: Text)
      requires run.owner.Some?
      modifies this`messages
      ensures messages == StoreAnswer(old(State()), run, answer)
      ensures Recorded(old(State()), State(), run, Some(answer))
    {
      ghost var before := State();
      var assistantId := AssistantId(run.message);
      if assistantId !in messages {
        var top := MaxOrdinal(run.conversation);
        messages :=
            messages[assistantId :=
            MessageRecord(run.conversation, run.owner.value, top + 1, Assistant, answer, Complete)];
      } else {
        messages := messages[assistantId := messages[assistantId].(content := answer, state := Complete)];
      }
      AnswerIsRecorded(before, run, answer, State());
    }

    /** The part of a closing transaction that writes the conversation. */
    method PersistConversationResult(run: Run, status: Status, bodies: seq<Body>, answer: Option<Text>, now: Time)
      requires LockedBelow(1)
      modifies this`conversations, this`messages, this`locked
      ensures LockedBelow(2)
      ensures State() == PersistResult(old(State()), run, status, bodies, answer, now)
      ensures Recorded(old(State()), State(), run,
                       if AtHome(old(State()), run) && answer != Some([]) then answer else None)
    {
      if run.owner.None? || run.conversation !in conversations
          || conversations[run.conversation].owner != run.owner.value {
        return;
      }
      Lock(ConversationRow(run.conversation));
      if answer.Some? && answer.value != [] {
        StoreAnswerMessage(run, answer.value);
      }
      var c := Touch(conversations[run.conversation], status, bodies, now);
      conversations := conversations[run.conversation := c];
    }

    method MarkControl(m: MessageId, action: SafetyAction)
      requires LockedBelow(2)
      modifies this`controls, this`locked
      ensures LockedBelow(3)
      ensures controls == SetAction(old(controls), m, action)
    {
      if m in controls {
        Lock(ControlRow(m));
        controls := controls[m := controls[m].(action := action)];
      }
    }

    method FinalizeRun(r: RunId, status: Status, bodies: seq<Body>, marked: Option<(MessageId, SafetyAction)>,
                       answer: Option<Text>, error: Option<string>, now: Time) returns (finished: bool)
      requires Valid() && Terminal(status)
      modifies this`runs, this`conversations, this`messages, this`controls, this`locked
      ensures Valid() && LockedBelow(8)
      ensures State() == Transactions.FinalizeRun(old(State()), r, status, bodies, marked, answer, error, now)
      ensures finished == Unfinished(old(State()), r)
    {
      locked := [];
      if r !in runs {
        return false;
      }
      Lock(RunRow(r));
      var run := runs[r];
      if Terminal(run.status) {
        return false;
      }
      run := FinishRow(run, status, answer, error, now);
      CloseWith(r, run, status, bodies, marked, answer, now);
      return true;
    }

    /** Everything a finished run writes: its conversation, its control and itself. */
    method CloseWith(r: RunId, run: Run, status: Status, bodies: seq<Body>, marked: Option<(MessageId, SafetyAction)>,
                     answer: Option<Text>, now: Time)
      requires Valid() && Numbered(run) && LockedBelow(1)
      modifies this`runs, this`conversations, this`messages, this`controls, this`locked
      ensures Valid() && LockedBelow(3)
      ensures State() == PersistResult(old(State()), run, status, bodies, answer, now).(
                           runs := old(runs)[r := AppendEvents(run, bodies, now)],
                           controls := if marked.Some? then SetAction(old(controls), marked.value.0, marked.value.1)
                               else old(controls))
    {
      PersistConversationResult(run, status, bodies, answer, now);
      if marked.Some? {
        MarkControl(marked.value.0, marked.value.1);
      }
      StoreWith(r, run, bodies, now);
    }

    method MarkRunCancelled(r: RunId, now: Time) returns (cancelled: bool)
      requires Valid()
      modifies this
      ensures Valid() && LockedBelow(8)
      ensures State() == MarkCancelled(old(State()), r, now)
      ensures cancelled == Unfinished(old(State()), r)
    {
      locked := [];
      if r !in runs {
        return false;
      }
      Lock(RunRow(r));
      var run := runs[r];
      if Terminal(run.status) {
        return false;
      }
      var latest := LatestSnapshot(run.log);
      var partial := if latest.Some? then latest.value else [];
      run := run.(status := Cancelled, updatedAt := now);
      if run.cancelRequested.None? {
        run := run.(cancelRequested := Some(now));
      }
      run := run.(leaseOwner := None, leaseExpires := None);
      if partial != [] {
        run := run.(answer := Some(partial));
        assert run == CancelledRow(old(runs)[r], now);
        PersistConversationResult(run, Cancelled, [], Some(partial), now);
      }
      assert run == CancelledRow(old(runs)[r], now);
      StoreWith(r, run, [RunCancelled(partial)], now);
      return true;
    }

    /** Releases the unit of a run that is still reserved, and every counter it was taken from. */
    method ReleaseReservedAllowance(r: RunId) returns (released: bool)
      requires LockedBelow(4)
      modifies this`ledger, this`counters, this`locked
      ensures LockedBelow(8)
      ensures State() == ReleaseReserved(old(State()), r)
      ensures released == (r in old(ledger) && old(ledger)[r].status == Reserved)
    {
      if r !in ledger || ledger[r].status != Reserved {
        return false;
      }
      Lock(LedgerRow(r));
      var entry := ledger[r];
      ledger := ledger[r := entry.(status := Released)];
      ReturnUnits(entry);
      return true;
    }

    /** Takes one from each counter that the entry names, the service's last. */
    method ReturnUnits(entry: LedgerEntry)
      requires LockedBelow(5)
      modifies this`counters, this`locked
      ensures LockedBelow(8)
      ensures counters == Decrement(old(counters), KeysOf(entry))
    {
      ReturnSignals(entry);
      var service := ServiceKey(entry.day);
      DecrementMore(old(counters), SignalKeys(entry.device, entry.ip, entry.day), service);
      if service in counters {
        Lock(CounterRow(service));
        counters := counters[service := Less(counters[service])];
      }
    }

    /** Takes one from the device counter and one from the address counter, where the entry names them. */
    method ReturnSignals(entry: LedgerEntry)
      requires LockedBelow(5)
      modifies this`counters, this`locked
      ensures LockedBelow(7)
      ensures counters == Decrement(old(counters), SignalKeys(entry.device, entry.ip, entry.day))
    {
      var device := if entry.device.Some? then Some(DeviceKey(entry.device.value, entry.day)) else None;
      var ip := if entry.ip.Some? then Some(IpKey(entry.ip.value, entry.day)) else None;
      var signals := [device, ip];
      DecrementNone(counters);
      for i := 0 to 2
        invariant LockedBelow(5 + i)
        invariant counters == Decrement(old(counters), KeysAmong(signals, i))
      {
        KeysAmongNext(signals, i);
        if signals[i].None? {
          continue;
        }
        var key := signals[i].value;
        assert key !in KeysAmong(signals, i);
        DecrementMore(old(counters), KeysAmong(signals, i), key);
        if key in counters {
          Lock(CounterRow(key));
          counters := counters[key := Less(counters[key])];
        }
      }
      TwoSignals(entry.device, entry.ip, entry.day);
    }

    method RequestRunCancellation(r: RunId, now: Time) returns (accepted: bool)
      requires Valid()
      modifies this
      ensures Valid() && LockedBelow(8)
      ensures State() == RequestCancellation(old(State()), r, now)
      ensures accepted == Unfinished(old(State()), r)
    {
      locked := [];
      if r !in runs {
        return false;
      }
      Lock(RunRow(r));
      var run := runs[r];
      if Terminal(run.status) {
        return false;
      }
      if run.cancelRequested.Some? {
        return true;
      }
      run := run.(cancelRequested := Some(now), updatedAt := now);
      if run.status == Status.Accepted {
        run := run.(status := Cancelled);
        var _ := ReleaseReservedAllowance(r);
        run := AppendAll(run, [RunCancelled([])], now);
      } else {
        run := AppendAll(run, [StatusChanged("stopping", "Stopping", None)], now);
      }
      runs := runs[r := run];
      return true;
    }

    // -------------------------------------------------------------- dispatch

    /** Picks the earliest claimable run among the rows nobody has locked. */
    method ClaimNextRun(worker: WorkerId, skipped: set<RunId>, now: Time) returns (claimed: Option<RunId>)
      requires Valid()
      modifies this
      ensures Valid() && LockedBelow(8)
      ensures claimed.Some? ==> SelectedForClaim(cfg, old(State()), claimed.value, skipped, now)
                                && State() == Claim(cfg, old(State()), claimed.value, worker, skipped, now)
      ensures claimed.None? ==> State() == old(State())
                                && forall r :: r in old(runs) && r !in skipped ==> !Claimable(cfg, old(runs)[r], now)
      ensures match claimed
              case None => forall r :: r in old(runs) && r !in skipped ==> !ClaimOrder.Ready(cfg, old(runs)[r], now)
              case Some(r) => ClaimOrder.First(cfg, old(runs), r, skipped, now)
                              && runs == old(runs)[r := ClaimOrder.TakenRow(cfg, old(runs)[r], worker, now)]
    {
      locked := [];
      claimed := EarliestClaimable(skipped, now);
      if claimed.None? {
        return;
      }
      var r := claimed.value;
      Lock(RunRow(r));
      var run := runs[r];
      run := run.(status := Dispatched, attempts := run.attempts + 1);
      run := run.(leaseOwner := Some(worker), leaseExpires := Some(now + LeaseLength(cfg)), updatedAt := now);
      runs := runs[r := run];
    }

    /** The claim query: `order by next_attempt_at, created_at limit 1`. */
    method EarliestClaimable(skipped: set<RunId>, now: Time) returns (best: Option<RunId>)
      ensures best.Some? ==> SelectedForClaim(cfg, State(), best.value, skipped, now)
      ensures best.None? ==> forall r :: r in runs && r !in skipped ==> !Claimable(cfg, runs[r], now)
      ensures match best
              case None => forall r :: r in runs && r !in skipped ==> !ClaimOrder.Ready(cfg, runs[r], now)
              case Some(r) => ClaimOrder.First(cfg, runs, r, skipped, now)
    {
      forall r | r in runs ensures ClaimOrder.Ready(cfg, runs[r], now) <==> Claimable(cfg, runs[r], now) {
        ClaimOrder.ReadyIsClaimable(cfg, runs[r], now);
      }
      best := None;
      var todo := runs.Keys - skipped;
      while todo != {}
        invariant todo <= runs.Keys - skipped
        invariant best.Some? ==> best.value in runs && best.value !in skipped && Claimable(cfg, runs[best.value], now)
        invariant forall q :: q in runs && q !in skipped && q !in todo && Claimable(cfg, runs[q], now) ==>
                    best.Some? && Precedes(runs[best.value], runs[q])
        decreases |todo|
      {
        var r :| r in todo;
        todo := todo - {r};
        if Claimable(cfg, runs[r], now) && (best.None? || !Precedes(runs[best.value], runs[r])) {
          best := Some(r);
        }
      }
    }

    method RenewRunLease(r: RunId, worker: WorkerId, now: Time) returns (renewed: bool)
      requires Valid()
      modifies this
      ensures Valid() && LockedBelow(8)
      ensures State() == Renew(cfg, old(State()), r, worker, now)
      ensures renewed == (HoldsLease(old(State()), r, worker) && old(runs)[r].status in {Dispatched, Working})
    {
      locked := [];
      if r !in runs {
        return false;
      }
      Lock(RunRow(r));
      var run := runs[r];
      if run.leaseOwner != Some(worker) || run.status !in {Dispatched, Working} {
        return false;
      }
      run := run.(leaseExpires := Some(now + LeaseLength(cfg)));
      run := run.(updatedAt := now);
      runs := runs[r := run];
      return true;
    }

    method ReleaseRunForRetry(r: RunId, worker: WorkerId, code: string, now: Time)
      requires Valid()
      modifies this
      ensures Valid() && LockedBelow(8)
      ensures State() == ReleaseForRetry(cfg, old(State()), r, worker, code, now)
    {
      locked := [];
      if r !in runs {
        return;
      }
      Lock(RunRow(r));
      var run := runs[r];
      if run.leaseOwner != Some(worker) {
        return;
      }
      run := run.(leaseOwner := None, leaseExpires := None, updatedAt := now);
      if run.attempts >= cfg.maxAttempts {
        run := run.(status := Failed, error := Some(code));
        if r in ledger && ledger[r].status == Reserved {
          Lock(LedgerRow(r));
          ledger := ledger[r := ledger[r].(status := Released)];
        }
        run := AppendNext(run, RunFailed(code, UNREACHABLE_COPY), now);
        runs := runs[r := run];
        return;
      }
      run := run.(status := Status.Accepted, nextAttempt := now + RetryDelay(run.attempts) * SECOND);
      run := AppendNext(run, StatusChanged("queued", "Reconnecting", None), now);
      runs := runs[r := run];
    }

    /** The second allocator: it trusts the run's counter alone. */
    method AppendNext(run: Run, body: Body, now: Time) returns (next: Run)
      requires Numbered(run)
      ensures next == AppendEvents(run, [body], now) && Numbered(next)
    {
      next := run.(lastSequence := run.lastSequence + 1);
      next := next.(log := next.log + [Event(next.lastSequence, body, now)]);
      NoEvents(run, [body], now);
      NextEvent(run, [body], 0, now);
      assert [body][..1] == [body];
      AppendKeepsNumbers(run, [body], now);
    }

    // -------------------------------------------------------------- quota

    method ChargeAllowance(r: RunId)
      requires Valid()
      modifies this
      ensures Valid() && LockedBelow(8)
      ensures State() == Charge(old(State()), r)
    {
      locked := [];
      if r in ledger && ledger[r].status == Reserved {
        Lock(LedgerRow(r));
        ledger := ledger[r := ledger[r].(status := Charged)];
      }
    }

    method AllowanceForUser(u: UserId, day: int) returns (allowance: Option<Allowance>)
      ensures allowance == if u in accounts then Some(AllowanceFor(cfg, State(), u, day)) else None
      ensures allowance.Some? ==>
                && allowance.value.limit ==
                   QuotaSafety.AllowedBy(cfg, accounts[u], if (u, day) in grants then grants[(u, day)] else 0)
                && allowance.value.used == |QuotaSafety.UnitsHeld(ledger, u, day)|
    {
      if u !in accounts {
        return None;
      }
      Allowances.PageIs(cfg, State(), u, day);
      var grantUnits := if (u, day) in grants then grants[(u, day)] else 0;
      var used := |LiveOf(ledger, u, day)|;
      var override := accounts[u].dailyLimit;
      var base := if override.Some? && override.value != 0 then override.value else cfg.baseLimit;
      var limit := base + grantUnits;
      return Some(Allowance(limit, used, Max(0, limit - used)));
    }

    /** Creates the counter at zero if it is missing, locks it and reads it. */
    method LockedSignalUsage(key: CounterKey) returns (units: nat)
      requires LockedBelow(Rank(CounterRow(key)))
      modifies this`counters, this`locked
      ensures counters == if key in old(counters) then old(counters) else old(counters)[key := 0]
      ensures LockedBelow(Rank(CounterRow(key)) + 1)
      ensures units == Count(old(counters), key) && key in counters
    {
      if key !in counters {
        counters := counters[key := 0];
      }
      Lock(CounterRow(key));
      return counters[key];
    }

    /** Locks and checks one counter after those of the keys taken. */
    method TakeSignal(key: CounterKey, limit: nat, taken: seq<CounterKey>, ghost keys: set<CounterKey>,
                      ghost before: map<CounterKey, nat>)
      returns (full: bool, signals: seq<CounterKey>)
      requires LockedBelow(Rank(CounterRow(key))) && key !in keys
      requires counters == Zeroed(before, keys) && Lists(taken, keys)
      modifies this`counters, this`locked
      ensures LockedBelow(Rank(CounterRow(key)) + 1)
      ensures full == (Count(before, key) >= limit)
      ensures counters == Zeroed(before, keys + {key}) && Lists(signals, keys + {key})
    {
      ZeroedMore(before, keys, key);
      ListsMore(taken, keys, key);
      var units := LockedSignalUsage(key);
      return units >= limit, taken + [key];
    }

    /** Locks and checks the device and address counters of a request. */
    method TakeSignals(device: Option<Digest>, ip: Option<Digest>, day: int)
      returns (full: bool, signals: seq<CounterKey>)
      requires LockedBelow(5)
      modifies this`counters, this`locked
      ensures LockedBelow(7)
      ensures full == SignalFull(cfg, old(counters), device, ip, day)
      ensures !full ==> counters == Zeroed(old(counters), SignalKeys(device, ip, day))
      ensures !full ==> Lists(signals, SignalKeys(device, ip, day))
    {
      full, signals := false, [];
      ghost var keys: set<CounterKey> := {};
      RaisedEnds(counters, {});
      if device.Some? {
        var key := DeviceKey(device.value, day);
        full, signals := TakeSignal(key, cfg.deviceLimit, signals, keys, old(counters));
        keys := {key};
        if full {
          assert key in SignalKeys(device, ip, day) && Count(old(counters), key) >= LimitOf(cfg, key);
          return;
        }
      }
      if ip.Some? {
        var key := IpKey(ip.value, day);
        full, signals := TakeSignal(key, cfg.ipLimit, signals, keys, old(counters));
        keys := keys + {key};
        if full {
          assert key in SignalKeys(device, ip, day) && Count(old(counters), key) >= LimitOf(cfg, key);
          return;
        }
      }
      assert keys == SignalKeys(device, ip, day);
    }

    /** The same for all the counters of a request, the service's last. */
    method TakeCounters(device: Option<Digest>, ip: Option<Digest>, day: int)
      returns (full: bool, signals: seq<CounterKey>)
      requires LockedBelow(5)
      modifies this`counters, this`locked
      ensures LockedBelow(8)
      ensures full == SomeCounterFull(cfg, old(counters), device, ip, day)
      ensures !full ==> counters == Zeroed(old(counters), SignalKeys(device, ip, day) + {ServiceKey(day)})
      ensures !full ==> Lists(signals, SignalKeys(device, ip, day))
    {
      full, signals := TakeSignals(device, ip, day);
      if full {
        return;
      }
      ZeroedMore(old(counters), SignalKeys(device, ip, day), ServiceKey(day));
      var serviceUnits := LockedSignalUsage(ServiceKey(day));
      full := serviceUnits >= cfg.serviceLimit;
    }

    method HasAllowance(u: UserId, day: int) returns (ok: bool)
      requires LockedBelow(3)
      modifies this`locked
      ensures LockedBelow(4)
      ensures ok == AllowedToday(cfg, State(), u, day)
    {
      if u !in accounts {
        return false;
      }
      Lock(AccountRow(u));
      if !accounts[u].active {
        return false;
      }
      var used := |LiveOf(ledger, u, day)|;
      return used < DailyLimit(cfg, State(), u, day);
    }

    /** Every check of a reservation, in order, with the locks it takes on the way. */
    method Examine(u: UserId, device: Option<Digest>, ip: Option<Digest>, now: Time)
      returns (verdict: Verdict, signals: seq<CounterKey>)
      requires LockedBelow(3)
      modifies this`counters, this`locked
      ensures LockedBelow(8)
      ensures verdict == Assess(cfg, old(State()), u, device, ip, now)
      ensures verdict == Allowances.VerdictOn(cfg, old(State()), u, device, ip, now / 86_400_000_000)
      ensures verdict.Admit? ==>
              counters == Zeroed(old(counters), SignalKeys(device, ip, Day(now)) + {ServiceKey(Day(now))})
      ensures verdict.Admit? ==> Lists(signals, SignalKeys(device, ip, Day(now)))
    {
      signals := [];
      ghost var before := State();
      Allowances.VerdictIs(cfg, before, u, device, ip, now);
      var allowed := HasAllowance(u, Day(now));
      AssessStops(cfg, before, u, device, ip, now);
      if !allowed {
        return QuotaExceeded, signals;
      }
      var full;
      full, signals := TakeCounters(device, ip, Day(now));
      if full {
        return QuotaExceeded, signals;
      }
      verdict := if |ActiveRuns(runs, u)| >= cfg.maxConcurrent then TooManyRuns else Admit;
    }

    /** A reservation inside the transaction that creates the run; on refusal the caller rolls back. */
    method ReserveAllowance(u: UserId, r: RunId, device: Option<Digest>, ip: Option<Digest>, now: Time)
      returns (verdict: Verdict)
      requires LockedBelow(3)
      modifies this`counters, this`ledger, this`locked
      ensures LockedBelow(8)
      ensures verdict == Assess(cfg, old(State()), u, device, ip, now)
      ensures verdict == Allowances.VerdictOn(cfg, old(State()), u, device, ip, now / 86_400_000_000)
      ensures verdict.Admit? ==> State() == Reserve(old(State()), u, r, device, ip, now)
    {
      ghost var before := State();
      var signals;
      verdict, signals := Examine(u, device, ip, now);
      if !verdict.Admit? {
        return;
      }
      RaiseAll(signals, ServiceKey(Day(now)), before.counters, SignalKeys(device, ip, Day(now)));
      ledger := ledger[r := LedgerEntry(u, device, ip, Day(now), Reserved, now)];
      ReserveIs(before, State(), u, r, device, ip, now);
    }

    /** Adds one to the service counter and to each signal counter. */
    method RaiseAll(signals: seq<CounterKey>, service: CounterKey, ghost before: map<CounterKey, nat>,
                    ghost both: set<CounterKey>)
      requires counters == Zeroed(before, both + {service}) && service !in both && Lists(signals, both)
      modifies this`counters
      ensures counters == Increment(before, both + {service})
    {
      RaisedEnds(before, both + {service});
      RaisedMore(before, both + {service}, {}, service);
      counters := RaiseEach(counters[service := counters[service] + 1], signals, before, both, service);
    }

    // -------------------------------------------------------------- run creation

    /** Opens the conversation of a user's request with the uploaded history, or checks it. */
    method OpenConversation(u: UserId, req: Request, now: Time) returns (refusal: Option<Outcome>)
      requires LockedBelow(1)
      modifies this`conversations, this`messages, this`locked
      ensures LockedBelow(2)
      ensures match Transactions.OpenConversation(old(conversations), old(messages), u, req, now)
              case Entered(cs, ms) => refusal.None? && conversations == cs && messages == ms && req.conversation in cs
              case EntryNotFound => refusal == Some(RefusedNotFound)
              case EntryConflict => refusal == Some(Conflict)
    {
      if req.conversation !in conversations {
        conversations :=
            conversations[req.conversation := Conversation(u, Clip(req.content, 80), false, false, false, 1, now)];
        var clash := AddHistory(req.history, req.conversation, u);
        return if clash then Some(Conflict) else None;
      }
      Lock(ConversationRow(req.conversation));
      if conversations[req.conversation].owner != u {
        return Some(RefusedNotFound);
      }
      if && req.message in messages
         && messages[req.message].conversation == req.conversation
         && (messages[req.message].role != User || messages[req.message].content != req.content) {
        return Some(RefusedNotFound);
      }
      return None;
    }

    /** Enters the request's message into its conversation. */
    method EnterConversation(u: UserId, req: Request, now: Time) returns (refusal: Option<Outcome>)
      requires LockedBelow(1)
      modifies this`conversations, this`messages, this`locked
      ensures LockedBelow(2)
      ensures match Transactions.EnterConversation(old(conversations), old(messages), u, req, now)
              case Entered(cs, ms) => refusal.None? && conversations == cs && messages == ms
              case EntryNotFound => refusal == Some(RefusedNotFound)
              case EntryConflict => refusal == Some(Conflict)
    {
      refusal := OpenConversation(u, req, now);
      if refusal.Some? {
        return;
      }
      AddMessage(u, req);
      var c := conversations[req.conversation];
      c := c.(updatedAt := now);
      c := c.(revision := c.revision + 1);
      conversations := conversations[req.conversation := c];
    }

    /** Adds the request's message at the next ordinal unless its key is taken. */
    method AddMessage(u: UserId, req: Request)
      modifies this`messages
      ensures messages == if req.message in old(messages) then old(messages)
                          else old(messages)[req.message :=
                              MessageRecord(req.conversation, u, NextOrdinal(old(messages), req.conversation),
                                                                          User, req.content, Complete)]
    {
      var top := MaxOrdinal(req.conversation);
      if req.message !in messages {
        messages := messages[req.message := MessageRecord(req.conversation, u, top + 1, User, req.content, Complete)];
      }
    }

    /** Inserts the uploaded history; a taken primary key is a clash. */
    method AddHistory(history: seq<HistoryMessage>, c: ConversationId, u: UserId) returns (clash: bool)
      modifies this`messages
      ensures clash == (!DistinctIds(history) || exists h :: h in history && h.id in old(messages))
      ensures !clash ==> messages == HistoryRecords(old(messages), history, c, u)
    {
      for i := 0 to |history|
        invariant messages == HistoryRecords(old(messages), history[..i], c, u)
        invariant messages.Keys == old(messages).Keys + set j | 0 <= j < i :: history[j].id
        invariant DistinctIds(history[..i]) && forall h :: h in history[..i] ==> h.id !in old(messages)
      {
        assert history[..i + 1][..i] == history[..i];
        if history[i].id in messages {
          assert history[i] in history;
          return true;
        }
        messages :=
            messages[history[i].id := MessageRecord(c, u, i + 1, history[i].role, history[i].content, Complete)];
        assert history[..i + 1] == history[..i] + [history[i]];
      }
      assert history[..|history|] == history;
      return false;
    }

    /** The user's part of a create: its conversation, then its allowance. */
    method AdmitUser(u: UserId, r: RunId, req: Request, now: Time) returns (refusal: Option<Outcome>)
      requires LockedBelow(1)
      modifies this`conversations, this`messages, this`counters, this`ledger, this`locked
      ensures LockedBelow(8)
      ensures refusal == Admission(cfg, old(State()), r, u, req, now).1
      ensures refusal.None? ==> State() == Admission(cfg, old(State()), r, u, req, now).0
    {
      refusal := EnterConversation(u, req, now);
      if refusal.Some? {
        return;
      }
      ghost var entered := State();
      AssessIgnoresConversations(cfg, old(State()), entered, u, req.device, req.ip, now);
      var verdict := ReserveAllowance(u, r, req.device, req.ip, now);
      refusal := match verdict
        case QuotaExceeded => Some(RefusedQuota)
        case TooManyRuns => Some(RefusedConcurrent)
        case Admit => None;
    }

    /** The run to which an earlier request with the same key and owner led, if there is one. */
    method FindExisting(req: Request) returns (found: Option<RunId>)
      ensures found.Some? ==> found.value in runs && SameRequest(runs[found.value], req)
      ensures found.None? ==> forall q :: q in runs ==> !SameRequest(runs[q], req)
    {
      found := None;
      var todo := runs.Keys;
      while todo != {}
        invariant todo <= runs.Keys
        invariant found.Some? ==> found.value in runs && SameRequest(runs[found.value], req)
        invariant found.None? ==> forall q :: q in runs && q !in todo ==> !SameRequest(runs[q], req)
        decreases |todo|
      {
        var q :| q in todo;
        todo := todo - {q};
        if SameRequest(runs[q], req) {
          found := Some(q);
        }
      }
    }

    /** `coalesce(max(ordinal), 0)` over the sender's controls of a conversation. */
    method MaxControlOrdinal(req: Request) returns (top: nat)
      ensures top == MaxOf(ControlOrdinals(State(), req))
    {
      top := 0;
      ghost var all := ControlOrdinals(State(), req);
      var todo := controls.Keys;
      while todo != {}
        invariant todo <= controls.Keys
        invariant top == 0 || top in all
        invariant forall m :: m in controls && m !in todo && OwnControl(controls[m], req) ==> controls[m].ordinal <= top
        decreases |todo|
      {
        var m :| m in todo;
        todo := todo - {m};
        if OwnControl(controls[m], req) && controls[m].ordinal > top {
          top := controls[m].ordinal;
        }
      }
    }

    /** Inserts the control and the run, then its first event. */
    method InsertRun(r: RunId, req: Request, ordinal: nat, now: Time)
      modifies this`controls, this`runs
      ensures State() == Transactions.InsertRun(cfg, old(State()), r, req, ordinal, now)
      ensures r in runs && Numbered(runs[r])
    {
      controls := controls[req.message := Control(req.conversation, req.session, req.owner, ordinal, Pending)];
      var run := Run(req.conversation, req.message, req.owner, req.session, req.key, Status.Accepted, None, None,
                     1, 0, None, None, now, None, now + cfg.retentionDays * DAY, now, now, []);
      run := run.(log := [Event(1, RunAccepted, now)]);
      assert run.log == [] + NumberedEvents(1, [RunAccepted], now);
      runs := runs[r := run];
    }

    /** Creating a run: every check, the conversation, the allowance and the rows, or none of it. */
    method CreateRun(r: RunId, req: Request, now: Time) returns (outcome: Outcome)
      requires Valid()
      modifies this
      ensures Valid() && LockedBelow(8)
      ensures State() == Transactions.CreateRun(cfg, old(State()), r, req, now).0
      ensures var expected := Transactions.CreateRun(cfg, old(State()), r, req, now).1;
              if outcome.Existing? then expected.Existing? && outcome.run in runs && SameRequest(runs[outcome.run], req)
              else outcome == expected
    {
      locked := [];
      var saved := State();
      var existing := FindExisting(req);
      if existing.Some? {
        return Existing(existing.value);
      }
      if Gated(saved, req) {
        return RefusedTerminated;
      }
      outcome := CreateFresh(r, req, now);
      if !outcome.Created? {
        Rollback(saved);
      }
    }

    method AdmitSender(r: RunId, req: Request, now: Time) returns (refusal: Option<Outcome>)
      requires LockedBelow(1)
      modifies this`conversations, this`messages, this`counters, this`ledger, this`locked
      ensures LockedBelow(8)
      ensures refusal == Admitted(cfg, old(State()), r, req, now).1
      ensures refusal.None? ==> State() == Admitted(cfg, old(State()), r, req, now).0
    {
      refusal := None;
      if req.owner.Some? {
        refusal := AdmitUser(req.owner.value, r, req, now);
      }
    }

    method CreateFresh(r: RunId, req: Request, now: Time) returns (outcome: Outcome)
      requires Valid() && LockedBelow(1)
      modifies this`conversations, this`messages, this`counters, this`ledger, this`controls, this`runs, this`locked
      ensures LockedBelow(8)
      ensures outcome == CreateNew(cfg, old(State()), r, req, now).1
      ensures outcome.Created? ==> Valid() && State() == CreateNew(cfg, old(State()), r, req, now).0
      ensures !outcome.Created? ==> CreateNew(cfg, old(State()), r, req, now).0 == old(State())
    {
      var before := State();
      var top := MaxControlOrdinal(req);
      CreateNewIs(cfg, before, r, req, now, top + 1, Admitted(cfg, before, r, req, now),
                  CreateNew(cfg, before, r, req, now));
      AdmittedKeepsRuns(cfg, before, r, req, now);
      var refusal := AdmitSender(r, req, now);
      if refusal.Some? {
        return refusal.value;
      }
      ghost var admitted := State();
      if InsertConflict(before, r, req, top + 1) {
        return Conflict;
      }
      InsertRun(r, req, top + 1, now);
      assert State() == Inserted(cfg, before, admitted, r, req, top + 1, now).0;
      return Created;
    }

    // -------------------------------------------------------------- conversation edits

    method EditMessage(c: ConversationId, m: MessageId, owner: Option<UserId>, session: string, now: Time)
      returns (removed: Option<set<MessageId>>)
      requires Valid()
      modifies this
      ensures Valid()
      ensures State() == Transactions.EditMessage(old(State()), c, m, owner, session, now)
      ensures removed ==
              if Editable(old(State()), c, m, owner, session) then Some(old(controls).Keys - controls.Keys) else None
    {
      if m !in controls || !ControlOf(controls[m], c, owner, session) {
        return None;
      }
      var ordinal := controls[m].ordinal;
      var removedIds := set k | k in controls && ControlOf(controls[k], c, owner, session)
          && controls[k].ordinal >= ordinal;
      controls := DropControls(controls, c, owner, session, ordinal);
      assert old(controls).Keys - controls.Keys == removedIds;
      if owner.Some? && m in messages && messages[m].owner == owner.value {
        messages := DropMessages(messages, c, owner.value, messages[m].ordinal);
        if c in conversations {
          var row := conversations[c];
          row := row.(terminated := false);
          row := row.(updatedAt := now);
          row := row.(revision := row.revision + 1);
          conversations := conversations[c := row];
        }
      }
      return Some(removedIds);
    }

    /** Stores a client's copy of a conversation over the stored one. */
    method UpsertConversation(c: ConversationId, u: UserId, body: Write, now: Time) returns (stored: bool)
      requires Valid()
      modifies this
      ensures Valid() && LockedBelow(8)
      ensures State() == Transactions.UpsertConversation(old(State()), c, u, body, now)
      ensures stored ==
              ((c in old(conversations) ==> old(conversations)[c].owner == u)
              && Reinserted(old(State()), c, u, body).Some?)
    {
      locked := [];
      if c in conversations {
        Lock(ConversationRow(c));
        if conversations[c].owner != u {
          return false;
        }
      }
      var saved := State();
      StoreRecord(c, u, body, now);
      var clash := AddUploaded(body.messages, c, u);
      if clash {
        Rollback(saved);
        return false;
      }
      return true;
    }

    /** Writes the record of an upload; the messages it replaces go. */
    method StoreRecord(c: ConversationId, u: UserId, body: Write, now: Time)
      modifies this`conversations, this`messages
      ensures conversations == old(conversations)[c := WrittenConversation(old(State()), c, u, body, now)]
      ensures messages == if c in old(conversations) then WithoutConversation(old(messages), c) else old(messages)
    {
      if c !in conversations {
        var row := Conversation(u, body.title, body.titleGenerated, body.pinned, body.terminated, 1, body.updatedAt);
        conversations := conversations[c := row];
      } else {
        var row := Overwrite(conversations[c], body, TerminationActive(State(), c, u), now);
        conversations := conversations[c := row];
        messages := WithoutConversation(messages, c);
      }
    }

    /** Reinserts the uploaded messages that are kept, at their positions. */
    method AddUploaded(uploaded: seq<StoredMessage>, c: ConversationId, u: UserId) returns (clash: bool)
      modifies this`messages
      ensures clash == Reinsert(old(messages), uploaded, c, u).None?
      ensures !clash ==> messages == Reinsert(old(messages), uploaded, c, u).value
    {
      for i := 0 to |uploaded|
        invariant Reinsert(old(messages), uploaded[..i], c, u) == Some(messages)
      {
        var m := uploaded[i];
        assert uploaded[..i + 1][..i] == uploaded[..i];
        if m.state == Streaming || Blank(m.content) {
          continue;
        }
        if m.id in messages {
          ReinsertFails(old(messages), uploaded, c, u, i + 1);
          return true;
        }
        messages := messages[m.id := MessageRecord(c, u, i + 1, m.role, m.content, m.state)];
      }
      assert uploaded[..|uploaded|] == uploaded;
      return false;
    }

    method DeleteConversation(c: ConversationId, u: UserId) returns (deleted: bool)
      requires Valid()
      modifies this
      ensures Valid() && LockedBelow(8)
      ensures State() == Transactions.DeleteConversation(old(State()), c, u)
      ensures deleted == (c in old(conversations) && old(conversations)[c].owner == u)
    {
      locked := [];
      if c !in conversations {
        return false;
      }
      Lock(ConversationRow(c));
      if conversations[c].owner != u {
        return false;
      }
      controls := controls - OwnedControls(controls, c, u);
      conversations := conversations - {c};
      messages := WithoutConversation(messages, c);
      return true;
    }

    // -------------------------------------------------------------- retention

    method PurgeExpiredRuns(now: Time) returns (purged: set<RunId>)
      requires Valid()
      modifies this`runs, this`controls
      ensures Valid()
      ensures State() == PurgeRuns(old(State()), now)
      ensures purged == old(runs).Keys - runs.Keys
    {
      PurgeSpelledOut(State(), now);
      ScrubbingKeepsNumbers(runs, now);
      PurgedAre(runs, now);
      purged := ScrubAndDrop(now);
    }

    /** Scrubs the finished runs of a day ago, then drops the expired ones with their controls. */
    method ScrubAndDrop(now: Time) returns (purged: set<RunId>)
      modifies this`runs, this`controls
      ensures purged == ExpiredOf(old(runs), now)
      ensures runs == ScrubAll(old(runs), now) - purged
      ensures controls == old(controls) - MessagesOf(old(runs), purged)
    {
      ScrubbingKeepsExpiry(runs, now);
      runs := ScrubAll(runs, now);
      purged := ExpiredOf(runs, now);
      if purged == {} {
        DropNone(runs, controls, MessagesOf(old(runs), purged));
        return;
      }
      DropExpired(purged);
    }

    method DropExpired(purged: set<RunId>)
      modifies this`runs, this`controls
      ensures runs == old(runs) - purged && controls == old(controls) - MessagesOf(old(runs), purged)
    {
      controls := controls - MessagesOf(runs, purged);
      runs := runs - purged;
    }

    method PurgeExpiredSecurityData(now: Time)
      requires Valid()
      modifies this
      ensures Valid()
      ensures State() == PurgeSecurity(old(State()), now)
    {
      var ninetyDaysAgo := now - NINETY_DAYS;
      ledger := ledger - set r | r in ledger && ledger[r].reservedAt < ninetyDaysAgo;
      counters := counters - set k | k in counters && DayOf(k) < Day(ninetyDaysAgo);
      grants := grants - set g | g in grants && g.1 < Day(ninetyDaysAgo);
    }
  }
}
