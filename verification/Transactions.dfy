/** Each database transaction as a function from the committed tables to the committed tables.

    A transaction that raises or finds its guard false leaves the tables as they were. The
    imperative versions, statement by statement, are in the module Store. */
module Transactions {
  import opened Records

  // ---------------------------------------------------------------- event log

  function NumberedEvents(first: nat, bodies: seq<Body>, now: Time): (events: seq<Event>) {
    seq(|bodies|, i requires 0 <= i < |bodies| => Event(first + i, bodies[i], now))
  }

  function AppendEvents(run: Run, bodies: seq<Body>, now: Time): (row: Run) {
    run.(lastSequence := run.lastSequence + |bodies|,
         log := run.log + NumberedEvents(run.lastSequence + 1, bodies, now))
  }

  function AddEvent(db: Db, r: RunId, body: Body, now: Time): (after: Db) {
    if r in db.runs then db.(runs := db.runs[r := AppendEvents(db.runs[r], [body], now)]) else db
  }

  function LatestSnapshot(log: seq<Event>): (result: Option<Text>) {
    if log == [] then None
    else
      var e := log[|log| - 1];
      if e.body.AnswerSnapshot? then Some(e.body.text) else LatestSnapshot(log[..|log| - 1])
  }

  // ---------------------------------------------------------------- run status

  predicate Unfinished(db: Db, r: RunId) {
    r in db.runs && !Terminal(db.runs[r].status)
  }

  predicate CanStartWork(db: Db, r: RunId) {
    Unfinished(db, r) && db.runs[r].cancelRequested.None?
  }

  function SetWorking(db: Db, r: RunId, now: Time): (after: Db) {
    if CanStartWork(db, r)
    then db.(runs := db.runs[r := db.runs[r].(status := Working, updatedAt := now)])
    else db
  }

  function Finish(run: Run, status: Status, now: Time): (row: Run) {
    run.(status := status, updatedAt := now, leaseOwner := None, leaseExpires := None)
  }

  /** The largest element, or 0: SQL's `coalesce(max(x), 0)`. */
  ghost function MaxOf(s: set<nat>): (m: nat)
    ensures forall x :: x in s ==> x <= m
    ensures m == 0 || m in s
  {
    if s == {} then 0
    else
      var x :| x in s;
      var m := MaxOf(s - {x});
      assert forall y :: y in s ==> y == x || y in s - {x};
      if m < x then x else m
  }

  function ConversationOrdinals(messages: map<MessageId, MessageRecord>, c: ConversationId): (result: set<nat>) {
    set m | m in messages && messages[m].conversation == c :: messages[m].ordinal
  }

  ghost function NextOrdinal(messages: map<MessageId, MessageRecord>, c: ConversationId): (n: nat) {
    MaxOf(ConversationOrdinals(messages, c)) + 1
  }

  function LastTitle(bodies: seq<Body>): (text: Option<Text>) {
    if bodies == [] then None
    else
      var b := bodies[|bodies| - 1];
      if b.ConversationTitled? then Some(b.title) else LastTitle(bodies[..|bodies| - 1])
  }

  function Clip(s: Text, n: nat): (text: Text) {
    if |s| <= n then s else s[..n]
  }

  predicate OwnsConversation(db: Db, run: Run) {
    && run.owner.Some?
    && run.conversation in db.conversations
    && db.conversations[run.conversation].owner == run.owner.value
  }

  ghost function StoreAnswer(db: Db, run: Run, answer: Text): (result: map<MessageId, MessageRecord>)
    requires run.owner.Some?
  {
    var id := AssistantId(run.message);
    if id in db.messages then
      db.messages[id := db.messages[id].(content := answer, state := Complete)]
    else
      db.messages[id := MessageRecord(run.conversation, run.owner.value,
                                      NextOrdinal(db.messages, run.conversation), Assistant, answer, Complete)]
  }

  function TouchConversation(c: Conversation, status: Status, bodies: seq<Body>, now: Time): (result: Conversation) {
    var title := LastTitle(bodies);
    c.(terminated := c.terminated || status == Terminated,
       title := if title.Some? then Clip(title.value, 80) else c.title,
       titleGenerated := c.titleGenerated || title.Some?,
       updatedAt := now,
       revision := c.revision + 1)
  }

  ghost function PersistResult(db: Db, run: Run, status: Status, bodies: seq<Body>, answer: Option<Text>,
                               now: Time): (after: Db) {
    if !OwnsConversation(db, run) then db
    else
      var c := db.conversations[run.conversation];
      db.(conversations := db.conversations[run.conversation := TouchConversation(c, status, bodies, now)],
          messages := if answer.Some? && answer.value != [] then StoreAnswer(db, run, answer.value) else db.messages)
  }

  function SetAction(controls: map<MessageId, Control>, m: MessageId, action: SafetyAction)
    : (result: map<MessageId, Control>)
  {
    if m in controls then controls[m := controls[m].(action := action)] else controls
  }

  function OrElse<T>(a: Option<T>, b: Option<T>): (result: Option<T>) {
    if a.Some? then a else b
  }

  /** The finished row, before its closing events. */
  function FinishedRow(run: Run, status: Status, answer: Option<Text>, error: Option<string>, now: Time): (row: Run) {
    Finish(run, status, now).(answer := OrElse(answer, run.answer), error := OrElse(error, run.error))
  }

  ghost function FinalizeRun(db: Db, r: RunId, status: Status, bodies: seq<Body>,
                             marked: Option<(MessageId, SafetyAction)>, answer: Option<Text>, error: Option<string>,
                             now: Time): (after: Db) {
    if !Unfinished(db, r) then db
    else
      var run := FinishedRow(db.runs[r], status, answer, error, now);
      PersistResult(db, run, status, bodies, answer, now).(
        runs := db.runs[r := AppendEvents(run, bodies, now)],
        controls := if marked.Some? then SetAction(db.controls, marked.value.0, marked.value.1) else db.controls)
  }

  function SnapshotText(log: seq<Event>): (text: Text) {
    if LatestSnapshot(log).Some? then LatestSnapshot(log).value else []
  }

  /** The cancelled row: it keeps the last streamed snapshot as its answer. */
  function CancelledRow(run: Run, now: Time): (row: Run) {
    var text := SnapshotText(run.log);
    Finish(run, Cancelled, now).(cancelRequested := OrElse(run.cancelRequested, Some(now)),
                                 answer := if text != [] then Some(text) else run.answer)
  }

  ghost function MarkCancelled(db: Db, r: RunId, now: Time): (after: Db) {
    if !Unfinished(db, r) then db
    else
      var text := SnapshotText(db.runs[r].log);
      var run := CancelledRow(db.runs[r], now);
      (if text != [] then PersistResult(db, run, Cancelled, [], Some(text), now) else db).(
        runs := db.runs[r := AppendEvents(run, [RunCancelled(text)], now)])
  }

  function AskedRow(run: Run, now: Time): (row: Run) {
    var asked := run.(cancelRequested := Some(now), updatedAt := now);
    if run.status == Accepted
    then AppendEvents(asked.(status := Cancelled), [RunCancelled([])], now)
    else AppendEvents(asked, [StatusChanged("stopping", "Stopping", None)], now)
  }

  function RequestCancellation(db: Db, r: RunId, now: Time): (after: Db) {
    if !Unfinished(db, r) || db.runs[r].cancelRequested.Some? then db
    else
      (if db.runs[r].status == Accepted then ReleaseReserved(db, r) else db).(
        runs := db.runs[r := AskedRow(db.runs[r], now)])
  }

  // ---------------------------------------------------------------- dispatch

  predicate Claimable(cfg: Config, run: Run, now: Time) {
    && (|| (run.status == Accepted && run.nextAttempt <= now)
        || (run.status in {Dispatched, Working} && run.leaseExpires.Some? && run.leaseExpires.value <= now))
    && run.cancelRequested.None?
    && run.attempts < cfg.maxAttempts
  }

  predicate Precedes(a: Run, b: Run) {
    a.nextAttempt < b.nextAttempt || (a.nextAttempt == b.nextAttempt && a.createdAt <= b.createdAt)
  }

  /** The claim query: the earliest claimable run among the rows no other transaction has locked. */
  predicate SelectedForClaim(cfg: Config, db: Db, r: RunId, skipped: set<RunId>, now: Time) {
    && r in db.runs && r !in skipped && Claimable(cfg, db.runs[r], now)
    && (forall q :: q in db.runs && q !in skipped && Claimable(cfg, db.runs[q], now) ==>
        Precedes(db.runs[r], db.runs[q]))
  }

  function LeaseLength(cfg: Config): (n: nat) {
    cfg.leaseSeconds * SECOND
  }

  function ClaimedRow(cfg: Config, run: Run, worker: WorkerId, now: Time): (row: Run) {
    run.(status := Dispatched, attempts := run.attempts + 1, leaseOwner := Some(worker),
         leaseExpires := Some(now + LeaseLength(cfg)), updatedAt := now)
  }

  function Claim(cfg: Config, db: Db, r: RunId, worker: WorkerId, skipped: set<RunId>, now: Time): (after: Db) {
    if SelectedForClaim(cfg, db, r, skipped, now)
    then db.(runs := db.runs[r := ClaimedRow(cfg, db.runs[r], worker, now)])
    else db
  }

  predicate HoldsLease(db: Db, r: RunId, worker: WorkerId) {
    r in db.runs && db.runs[r].leaseOwner == Some(worker)
  }

  function Renew(cfg: Config, db: Db, r: RunId, worker: WorkerId, now: Time): (after: Db) {
    if HoldsLease(db, r, worker) && db.runs[r].status in {Dispatched, Working}
    then db.(runs := db.runs[r := db.runs[r].(leaseExpires := Some(now + LeaseLength(cfg)), updatedAt := now)])
    else db
  }

  function Pow2(n: nat): (result: nat) {
    if n == 0 then 1 else 2 * Pow2(n - 1)
  }

  /** In seconds. */
  function RetryDelay(attempts: nat): (n: int) {
    Min(30, Pow2(Max(0, attempts - 1)))
  }

  const UNREACHABLE_COPY: Text := Words("The Archives could not be reached. Your message has been kept for retry.")

  function ReleasedRow(cfg: Config, run: Run, code: string, now: Time): (row: Run) {
    var free := run.(leaseOwner := None, leaseExpires := None, updatedAt := now);
    if run.attempts >= cfg.maxAttempts
    then AppendEvents(free.(status := Failed, error := Some(code)), [RunFailed(code, UNREACHABLE_COPY)], now)
    else AppendEvents(free.(status := Accepted, nextAttempt := now + RetryDelay(run.attempts) * SECOND),
                      [StatusChanged("queued", "Reconnecting", None)], now)
  }

  function ReleaseForRetry(cfg: Config, db: Db, r: RunId, worker: WorkerId, code: string, now: Time): (after: Db) {
    if !HoldsLease(db, r, worker) then db
    else
      db.(runs := db.runs[r := ReleasedRow(cfg, db.runs[r], code, now)],
          ledger := if db.runs[r].attempts >= cfg.maxAttempts then SetLedger(db.ledger, r, Released) else db.ledger)
  }

  // ---------------------------------------------------------------- quota

  function SetLedger(ledger: map<RunId, LedgerEntry>, r: RunId, status: LedgerStatus)
    : (result: map<RunId, LedgerEntry>)
  {
    if r in ledger && ledger[r].status == Reserved then ledger[r := ledger[r].(status := status)] else ledger
  }

  function Charge(db: Db, r: RunId): (after: Db) {
    db.(ledger := SetLedger(db.ledger, r, Charged))
  }

  function Increment(counters: map<CounterKey, nat>, keys: set<CounterKey>): (result: map<CounterKey, nat>) {
    map k | k in counters.Keys + keys :: Count(counters, k) + (if k in keys then 1 else 0)
  }

  /** `max(0, n - 1)`. */
  function Less(n: nat): (result: nat) {
    if n == 0 then 0 else n - 1
  }

  function Decrement(counters: map<CounterKey, nat>, keys: set<CounterKey>): (result: map<CounterKey, nat>) {
    map k | k in counters :: if k in keys then Less(counters[k]) else counters[k]
  }

  function ReleaseReserved(db: Db, r: RunId): (after: Db) {
    if r in db.ledger && db.ledger[r].status == Reserved then
      db.(ledger := SetLedger(db.ledger, r, Released),
          counters := Decrement(db.counters, KeysOf(db.ledger[r])))
    else db
  }

  /** The ledger rows that count against a user's day. */
  function LiveOf(ledger: map<RunId, LedgerEntry>, u: UserId, day: int): (runs: set<RunId>) {
    set r | r in ledger && Live(ledger[r]) && ledger[r].user == u && ledger[r].day == day
  }

  /** The ledger rows that count against one counter. */
  function LiveUnder(ledger: map<RunId, LedgerEntry>, k: CounterKey): (runs: set<RunId>) {
    set r | r in ledger && Live(ledger[r]) && k in KeysOf(ledger[r])
  }

  function ActiveRuns(runs: map<RunId, Run>, u: UserId): (result: set<RunId>) {
    set r | r in runs && runs[r].owner == Some(u) && !Terminal(runs[r].status)
  }

  /** The account override wins only when it is set and nonzero. */
  function DailyLimit(cfg: Config, db: Db, u: UserId, day: int): (n: nat)
    requires u in db.accounts
  {
    var o := db.accounts[u].dailyLimit;
    (if o.Some? && o.value != 0 then o.value else cfg.baseLimit) +
    (if (u, day) in db.grants then db.grants[(u, day)] else 0)
  }

  datatype Allowance = Allowance(limit: nat, used: nat, remaining: nat)

  function AllowanceFor(cfg: Config, db: Db, u: UserId, day: int): (result: Allowance)
    requires u in db.accounts
  {
    var limit := DailyLimit(cfg, db, u, day);
    var used := |LiveOf(db.ledger, u, day)|;
    Allowance(limit, used, Max(0, limit - used))
  }

  datatype Verdict = Admit | QuotaExceeded | TooManyRuns

  predicate SignalFull(cfg: Config, counters: map<CounterKey, nat>, device: Option<Digest>, ip: Option<Digest>,
                       day: int) {
    exists k :: k in SignalKeys(device, ip, day) && Count(counters, k) >= LimitOf(cfg, k)
  }

  function Assess(cfg: Config, db: Db, u: UserId, device: Option<Digest>, ip: Option<Digest>,
                  now: Time): (result: Verdict) {
    var day := Day(now);
    if u !in db.accounts || !db.accounts[u].active then QuotaExceeded
    else if |LiveOf(db.ledger, u, day)| >= DailyLimit(cfg, db, u, day) then QuotaExceeded
    else if SignalFull(cfg, db.counters, device, ip, day) then QuotaExceeded
    else if Count(db.counters, ServiceKey(day)) >= cfg.serviceLimit then QuotaExceeded
    else if |ActiveRuns(db.runs, u)| >= cfg.maxConcurrent then TooManyRuns
    else Admit
  }

  function Reserve(db: Db, u: UserId, r: RunId, device: Option<Digest>, ip: Option<Digest>, now: Time): (after: Db) {
    var e := LedgerEntry(u, device, ip, Day(now), Reserved, now);
    db.(ledger := db.ledger[r := e], counters := Increment(db.counters, KeysOf(e)))
  }

  // ---------------------------------------------------------------- run creation

  datatype HistoryMessage = HistoryMessage(id: MessageId, role: Role, content: Text)

  datatype Request = Request(
    conversation: ConversationId,
    message: MessageId,
    content: Text,
    history: seq<HistoryMessage>,
    owner: Option<UserId>,
    session: string,
    key: string,
    device: Option<Digest>,
    ip: Option<Digest>)

  datatype Outcome =
    | Existing(run: RunId)
    | Created
    | RefusedTerminated
    | RefusedNotFound
    | RefusedQuota
    | RefusedConcurrent
    | Conflict

  predicate SameRequest(run: Run, req: Request) {
    && run.key == req.key
    && (if req.owner.Some? then run.owner == req.owner else run.session == req.session)
  }

  predicate OwnControl(c: Control, req: Request) {
    && c.conversation == req.conversation
    && (if req.owner.Some? then c.owner == req.owner else c.session == req.session)
  }

  predicate Gated(db: Db, req: Request) {
    exists m :: m in db.controls && OwnControl(db.controls[m], req) && db.controls[m].action == TerminateAction
  }

  function ControlOrdinals(db: Db, req: Request): (result: set<nat>) {
    set m | m in db.controls && OwnControl(db.controls[m], req) :: db.controls[m].ordinal
  }

  predicate DistinctIds(history: seq<HistoryMessage>) {
    forall i, j :: 0 <= i < j < |history| ==> history[i].id != history[j].id
  }

  function HistoryRecords(messages: map<MessageId, MessageRecord>, history: seq<HistoryMessage>, c: ConversationId,
                          u: UserId): (result: map<MessageId, MessageRecord>) {
    if history == [] then messages
    else
      var n := |history| - 1;
      HistoryRecords(messages, history[..n], c, u)
        [history[n].id := MessageRecord(c, u, n + 1, history[n].role, history[n].content, Complete)]
  }

  /** The conversation tables after a user's create has entered its conversation. */
  datatype Entry =
    | Entered(conversations: map<ConversationId, Conversation>, messages: map<MessageId, MessageRecord>)
    | EntryNotFound
    | EntryConflict

  function OpenConversation(conversations: map<ConversationId, Conversation>, messages: map<MessageId, MessageRecord>,
                            u: UserId, req: Request, now: Time): (result: Entry) {
    if req.conversation in conversations then
      if conversations[req.conversation].owner != u then EntryNotFound
      else if && req.message in messages
              && messages[req.message].conversation == req.conversation
              && (messages[req.message].role != User || messages[req.message].content != req.content)
      then EntryNotFound
      else Entered(conversations, messages)
    else if !DistinctIds(req.history) || (exists h :: h in req.history && h.id in messages) then EntryConflict
    else
      Entered(conversations[req.conversation := Conversation(u, Clip(req.content, 80), false, false, false, 1, now)],
              HistoryRecords(messages, req.history, req.conversation, u))
  }

  /** The conversation part of a user's create: open or check it, add the message, bump the revision. */
  ghost function EnterConversation(conversations: map<ConversationId, Conversation>,
                                   messages: map<MessageId, MessageRecord>, u: UserId, req: Request,
                                   now: Time): (result: Entry) {
    var entry := OpenConversation(conversations, messages, u, req, now);
    if !entry.Entered? || req.conversation !in entry.conversations then entry
    else
      var c := entry.conversations[req.conversation];
      var ms := entry.messages;
      var stored := MessageRecord(req.conversation, u, NextOrdinal(ms, req.conversation), User, req.content, Complete);
      Entered(entry.conversations[req.conversation := c.(updatedAt := now, revision := c.revision + 1)],
              if req.message in ms then ms else ms[req.message := stored])
  }

  function NewRun(cfg: Config, req: Request, now: Time): (row: Run) {
    AppendEvents(
      Run(req.conversation, req.message, req.owner, req.session, req.key, Status.Accepted, None, None,
          0, 0, None, None, now, None, now + cfg.retentionDays * DAY, now, now, []),
      [RunAccepted], now)
  }

  /** Unique constraints on the control and run rows that the final flush would violate. */
  predicate InsertConflict(db: Db, r: RunId, req: Request, ordinal: nat) {
    || r in db.runs
    || (req.owner.Some? && r in db.ledger)
    || req.message in db.controls
    || (exists m :: && m in db.controls && db.controls[m].conversation == req.conversation
                    && db.controls[m].ordinal == ordinal)
    || (exists q :: q in db.runs && db.runs[q].session == req.session && db.runs[q].key == req.key)
  }

  ghost function InsertRun(cfg: Config, db: Db, r: RunId, req: Request, ordinal: nat, now: Time): (after: Db) {
    db.(controls := db.controls[req.message := Control(req.conversation, req.session, req.owner, ordinal, Pending)],
        runs := db.runs[r := NewRun(cfg, req, now)])
  }

  ghost function CreateForUser(cfg: Config, db: Db, r: RunId, u: UserId, req: Request, ordinal: nat, now: Time)
    : (end: (Db, Outcome))
  {
    match EnterConversation(db.conversations, db.messages, u, req, now)
    case EntryNotFound => (db, RefusedNotFound)
    case EntryConflict => (db, Conflict)
    case Entered(conversations, messages) =>
      match Assess(cfg, db, u, req.device, req.ip, now)
      case QuotaExceeded => (db, RefusedQuota)
      case TooManyRuns => (db, RefusedConcurrent)
      case Admit =>
        if InsertConflict(db, r, req, ordinal) then (db, Conflict)
        else
          var entered := db.(conversations := conversations, messages := messages);
          (InsertRun(cfg, Reserve(entered, u, r, req.device, req.ip, now), r, req, ordinal, now), Created)
  }

  ghost function NextControl(db: Db, req: Request): (n: nat) {
    MaxOf(ControlOrdinals(db, req)) + 1
  }

  ghost function CreateNew(cfg: Config, db: Db, r: RunId, req: Request, now: Time): (Db, Outcome) {
    var ordinal := NextControl(db, req);
    if req.owner.Some? then CreateForUser(cfg, db, r, req.owner.value, req, ordinal, now)
    else if InsertConflict(db, r, req, ordinal) then (db, Conflict)
    else (InsertRun(cfg, db, r, req, ordinal, now), Created)
  }

  ghost function CreateRun(cfg: Config, db: Db, r: RunId, req: Request, now: Time): (Db, Outcome) {
    if exists q :: q in db.runs && SameRequest(db.runs[q], req) then
      var q :| q in db.runs && SameRequest(db.runs[q], req);
      (db, Existing(q))
    else if Gated(db, req) then (db, RefusedTerminated)
    else CreateNew(cfg, db, r, req, now)
  }

  // ---------------------------------------------------------------- conversation edits

  predicate Editable(db: Db, c: ConversationId, m: MessageId, owner: Option<UserId>, session: string) {
    m in db.controls && ControlOf(db.controls[m], c, owner, session)
  }

  predicate ControlOf(k: Control, c: ConversationId, owner: Option<UserId>, session: string) {
    k.conversation == c && (if owner.Some? then k.owner == owner else k.session == session)
  }

  function DropControls(controls: map<MessageId, Control>, c: ConversationId, owner: Option<UserId>, session: string,
                        ordinal: nat): (result: map<MessageId, Control>) {
    controls - set m | m in controls && ControlOf(controls[m], c, owner, session) && controls[m].ordinal >= ordinal
  }

  function DropMessages(messages: map<MessageId, MessageRecord>, c: ConversationId, u: UserId,
                        ordinal: nat): (result: map<MessageId, MessageRecord>) {
    messages - set m | && m in messages && messages[m].conversation == c && messages[m].owner == u
                       && messages[m].ordinal >= ordinal
  }

  function EditMessage(db: Db, c: ConversationId, m: MessageId, owner: Option<UserId>, session: string,
                       now: Time): (after: Db) {
    if !Editable(db, c, m, owner, session) then db
    else
      var db1 := db.(controls := DropControls(db.controls, c, owner, session, db.controls[m].ordinal));
      if owner.Some? && m in db.messages && db.messages[m].owner == owner.value then
        db1.(messages := DropMessages(db.messages, c, owner.value, db.messages[m].ordinal),
             conversations :=
               if c in db.conversations
               then db.conversations[c := db.conversations[c].(terminated := false, updatedAt := now,
                                                               revision := db.conversations[c].revision + 1)]
               else db.conversations)
      else db1
  }

  datatype StoredMessage = StoredMessage(id: MessageId, role: Role, content: Text, state: MessageState)

  datatype Write = Write(title: Text, titleGenerated: bool, pinned: bool, terminated: bool,
                         updatedAt: Time, messages: seq<StoredMessage>)

  predicate Blank(s: Text) {
    forall i :: 0 <= i < |s| ==> ServerSpace(s[i])
  }

  predicate Kept(m: StoredMessage) {
    m.state != Streaming && !Blank(m.content)
  }

  /** Reinsert the uploaded messages at their positions; None when a primary key is taken. */
  function Reinsert(messages: map<MessageId, MessageRecord>, body: seq<StoredMessage>, c: ConversationId,
                    u: UserId): (result: Option<map<MessageId, MessageRecord>>) {
    if body == [] then Some(messages)
    else
      var n := |body| - 1;
      var before := Reinsert(messages, body[..n], c, u);
      if before.None? || !Kept(body[n]) then before
      else if body[n].id in before.value then None
      else Some(before.value[body[n].id := MessageRecord(c, u, n + 1, body[n].role, body[n].content, body[n].state)])
  }

  predicate TerminationActive(db: Db, c: ConversationId, u: UserId) {
    exists m :: m in db.controls && db.controls[m].owner == Some(u) && db.controls[m].conversation == c
             && db.controls[m].action == TerminateAction
  }

  function WrittenConversation(db: Db, c: ConversationId, u: UserId, body: Write, now: Time): (result: Conversation) {
    if c !in db.conversations then
      Conversation(u, body.title, body.titleGenerated, body.pinned, body.terminated, 1, body.updatedAt)
    else
      Conversation(db.conversations[c].owner, body.title, body.titleGenerated, body.pinned,
                   body.terminated || TerminationActive(db, c, u),
                   db.conversations[c].revision + 1, Max(body.updatedAt, now))
  }

  function WithoutConversation(messages: map<MessageId, MessageRecord>,
                               c: ConversationId): (result: map<MessageId, MessageRecord>) {
    messages - set m | m in messages && messages[m].conversation == c
  }

  function UpsertConversation(db: Db, c: ConversationId, u: UserId, body: Write, now: Time): (after: Db) {
    if c in db.conversations && db.conversations[c].owner != u then db
    else
      var base := if c in db.conversations then WithoutConversation(db.messages, c) else db.messages;
      var stored := Reinsert(base, body.messages, c, u);
      if stored.None? then db
      else db.(conversations := db.conversations[c := WrittenConversation(db, c, u, body, now)],
               messages := stored.value)
  }

  /** The user's controls of a conversation. */
  function OwnedControls(controls: map<MessageId, Control>, c: ConversationId, u: UserId): (owned: set<MessageId>) {
    set m | m in controls && controls[m].owner == Some(u) && controls[m].conversation == c
  }

  function DeleteConversation(db: Db, c: ConversationId, u: UserId): (after: Db) {
    if c !in db.conversations || db.conversations[c].owner != u then db
    else
      db.(controls := db.controls - OwnedControls(db.controls, c, u),
          conversations := db.conversations - {c},
          messages := WithoutConversation(db.messages, c))
  }

  // ---------------------------------------------------------------- retention

  const CONTENT_KEPT := 24 * 3600 * SECOND

  function Scrubbed(run: Run, now: Time): (row: Run) {
    if Terminal(run.status) && run.updatedAt <= now - CONTENT_KEPT then run.(answer := None, log := []) else run
  }

  predicate Expired(run: Run, now: Time) {
    Terminal(run.status) && run.expiresAt <= now
  }

  function PurgeRuns(db: Db, now: Time): (after: Db) {
    var messages := set r | r in db.runs && Expired(db.runs[r], now) :: db.runs[r].message;
    db.(runs := map r | r in db.runs && !Expired(db.runs[r], now) :: Scrubbed(db.runs[r], now),
        controls := db.controls - messages)
  }

  const NINETY_DAYS := 90 * DAY

  function DayOf(k: CounterKey): (n: int) {
    k.day
  }

  function PurgeSecurity(db: Db, now: Time): (after: Db) {
    var cutoff := now - NINETY_DAYS;
    db.(ledger := db.ledger - (set r | r in db.ledger && db.ledger[r].reservedAt < cutoff),
        counters := db.counters - (set k | k in db.counters && DayOf(k) < Day(cutoff)),
        grants := db.grants - (set g | g in db.grants && g.1 < Day(cutoff)))
  }

  // ---------------------------------------------------------------- administration

  function AddGrant(db: Db, u: UserId, day: int, units: nat): (after: Db) {
    if u !in db.accounts then db
    else db.(grants := db.grants[(u, day) := (if (u, day) in db.grants then db.grants[(u, day)] else 0) + units])
  }

  function SetAccount(db: Db, u: UserId, active: bool): (after: Db) {
    if u !in db.accounts then db else db.(accounts := db.accounts[u := db.accounts[u].(active := active)])
  }
}
