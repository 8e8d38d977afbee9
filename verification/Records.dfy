/** The stored tables of the run service, as values.

    Times are whole microseconds since the epoch; `Day` is the UTC date of a time. Identifiers and
    digests are opaque strings. The `agent_event` rows of a run are kept with the run, in the
    order in which they were inserted. */
module Records {
  datatype Option<+T> = None | Some(value: T)

  type RunId = string
  type UserId = string
  type WorkerId = string
  type MessageId = string
  type ConversationId = string
  type Digest = string

  /** A server string as its code points; a lone surrogate is one, as in Python. */
  type Text = seq<nat>
  type Time = int

  const SECOND: nat := 1_000_000
  const DAY: nat := 86_400 * SECOND

  function Day(t: Time): (n: int) {
    t / DAY
  }

  function Max(a: int, b: int): (n: int) {
    if a < b then b else a
  }

  function Min(a: int, b: int): (n: int) {
    if a < b then a else b
  }

  datatype Status = Accepted | Dispatched | Working | Completed | Failed | Cancelled | Terminated

  predicate Terminal(s: Status) {
    s in {Completed, Failed, Cancelled, Terminated}
  }

  /** Event types with the payload fields the client or the server reads back. */
  datatype Body =
    | RunAccepted
    | StatusChanged(kind: string, caption: string, tool: Option<string>)
    | ToolActivity(phase: string, toolName: string, caption: string)
    | AnswerStarted
    | AnswerSnapshot(text: Text)
    | AnswerDelta(delta: Text)
    | ArchiveUnavailable(text: Text)
    | ConversationTitled(title: Text)
    | RunCompleted
    | RunFailed(code: string, message: Text)
    | RunCancelled(partialAnswer: Text)
    | ConversationTerminated

  /** The types at which the server's stream and the client's subscription stop. */
  predicate TerminalBody(b: Body) {
    b.RunCompleted? || b.RunFailed? || b.RunCancelled? || b.ConversationTerminated?
  }

  /** What an executor appends while a run is in progress. */
  predicate ProgressBody(b: Body) {
    b.StatusChanged? || b.ToolActivity? || b.AnswerStarted? || b.AnswerSnapshot?
  }

  datatype Event = Event(sequence: nat, body: Body, createdAt: Time)

  datatype Run = Run(
    conversation: ConversationId,
    message: MessageId,
    owner: Option<UserId>,
    session: string,
    key: string,
    status: Status,
    answer: Option<Text>,
    error: Option<string>,
    lastSequence: nat,
    attempts: nat,
    leaseOwner: Option<WorkerId>,
    leaseExpires: Option<Time>,
    nextAttempt: Time,
    cancelRequested: Option<Time>,
    expiresAt: Time,
    createdAt: Time,
    updatedAt: Time,
    log: seq<Event>)

  datatype LedgerStatus = Reserved | Charged | Released

  /** One row per run; every row this service writes is for one unit. */
  datatype LedgerEntry = LedgerEntry(
    user: UserId,
    device: Option<Digest>,
    ip: Option<Digest>,
    day: int,
    status: LedgerStatus,
    reservedAt: Time)

  predicate Live(e: LedgerEntry) {
    e.status in {Reserved, Charged}
  }

  /** A row of either daily counter table. */
  datatype CounterKey =
    | DeviceKey(digest: Digest, day: int)
    | IpKey(digest: Digest, day: int)
    | ServiceKey(day: int)

  function SignalKeys(device: Option<Digest>, ip: Option<Digest>, day: int): (result: set<CounterKey>) {
    (if device.Some? then {DeviceKey(device.value, day)} else {}) +
    (if ip.Some? then {IpKey(ip.value, day)} else {})
  }

  function KeysOf(e: LedgerEntry): (result: set<CounterKey>) {
    SignalKeys(e.device, e.ip, e.day) + {ServiceKey(e.day)}
  }

  datatype Account = Account(active: bool, dailyLimit: Option<nat>)

  datatype Conversation = Conversation(
    owner: UserId,
    title: Text,
    titleGenerated: bool,
    pinned: bool,
    terminated: bool,
    revision: nat,
    updatedAt: Time)

  datatype Role = User | Assistant

  datatype MessageState = Complete | Streaming | FailedMessage

  datatype MessageRecord = MessageRecord(
    conversation: ConversationId,
    owner: UserId,
    ordinal: nat,
    role: Role,
    content: Text,
    state: MessageState)

  datatype SafetyAction = Pending | AnswerAction | UrgentSafety | ArchiveAction | TerminateAction

  /** A message control row; the `active` column is always true and has no field here. */
  datatype Control = Control(
    conversation: ConversationId,
    session: string,
    owner: Option<UserId>,
    ordinal: nat,
    action: SafetyAction)

  datatype Db = Db(
    runs: map<RunId, Run>,
    ledger: map<RunId, LedgerEntry>,
    counters: map<CounterKey, nat>,
    accounts: map<UserId, Account>,
    grants: map<(UserId, int), nat>,
    conversations: map<ConversationId, Conversation>,
    messages: map<MessageId, MessageRecord>,
    controls: map<MessageId, Control>)

  datatype Config = Config(
    maxAttempts: nat,
    leaseSeconds: nat,
    retentionDays: nat,
    maxConcurrent: nat,
    baseLimit: nat,
    deviceLimit: nat,
    ipLimit: nat,
    serviceLimit: nat)

  /** The bounds the settings class puts on the values used here. */
  predicate ValidConfig(cfg: Config) {
    && 1 <= cfg.maxAttempts <= 10
    && 15 <= cfg.leaseSeconds <= 600
    && 1 <= cfg.retentionDays <= 365
    && 1 <= cfg.maxConcurrent <= 10
    && 1 <= cfg.baseLimit <= 1000
    && 1 <= cfg.deviceLimit <= 1000
    && 1 <= cfg.ipLimit <= 1000
    && 1 <= cfg.serviceLimit <= 100_000
  }

  function LimitOf(cfg: Config, k: CounterKey): (n: nat) {
    match k
    case DeviceKey(_, _) => cfg.deviceLimit
    case IpKey(_, _) => cfg.ipLimit
    case ServiceKey(_) => cfg.serviceLimit
  }

  function Count(counters: map<CounterKey, nat>, k: CounterKey): (n: nat) {
    if k in counters then counters[k] else 0
  }

  /** The code points of a literal. */
  function Words(s: string): (t: Text)
    ensures |t| == |s| && forall i :: 0 <= i < |s| ==> t[i] == s[i] as nat
  {
    seq(|s|, i requires 0 <= i < |s| => s[i] as nat)
  }

  /** Whitespace as `str.strip`, `str.isspace` and `\s` see it on the server. */
  predicate ServerSpace(n: nat) {
    || 0x9 <= n <= 0xD || 0x1C <= n <= 0x20 || n == 0x85 || n == 0xA0 || n == 0x1680
    || 0x2000 <= n <= 0x200A || n in {0x2028, 0x2029, 0x202F, 0x205F, 0x3000}
  }

  /** Whitespace as `String.prototype.trim` sees it in the client. */
  predicate ClientSpace(n: nat) {
    || 0x9 <= n <= 0xD || n == 0x20 || n == 0xA0 || n == 0x1680
    || 0x2000 <= n <= 0x200A || n in {0x2028, 0x2029, 0x202F, 0x205F, 0x3000, 0xFEFF}
  }

  function AssistantId(m: MessageId): (result: MessageId) {
    "v-" + m
  }
}
