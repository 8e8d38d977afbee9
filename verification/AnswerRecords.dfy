/** The message that a run's ending stores, as a whole record. */
module AnswerRecords {
  import opened Records
  import opened Transactions
  import opened Protocol

  /** The position after the last message of the conversation. */
  ghost predicate NextFree(messages: map<MessageId, MessageRecord>, c: ConversationId, n: nat) {
    && (forall m :: m in messages && messages[m].conversation == c ==> messages[m].ordinal < n)
    && (n == 1 || exists m :: m in messages && messages[m].conversation == c && messages[m].ordinal + 1 == n)
  }

  /** The assistant's record of an answer that had none before. */
  ghost predicate NewAnswer(messages: map<MessageId, MessageRecord>, run: Run, text: Text, stored: MessageRecord) {
    && Some(stored.owner) == run.owner && stored.conversation == run.conversation && stored.role == Assistant
    && stored.content == text && stored.state == Complete
    && NextFree(messages, run.conversation, stored.ordinal)
  }

  /** The same record with the text, complete. */
  predicate SameAnswer(before: MessageRecord, text: Text, stored: MessageRecord) {
    && stored.owner == before.owner && stored.conversation == before.conversation && stored.role == before.role
    && stored.ordinal == before.ordinal && stored.content == text && stored.state == Complete
  }

  /** The text is stored as the answer to the run's message: in the record that was there, or as a new last
      message of the assistant. Every other message stays; without a text all of them do. */
  ghost predicate Recorded(db: Db, after: Db, run: Run, text: Option<Text>) {
    var id := "v-" + run.message;
    if text.None? then after.messages == db.messages
    else
      && id in after.messages && after.messages == db.messages[id := after.messages[id]]
      && if id in db.messages then SameAnswer(db.messages[id], text.value, after.messages[id])
         else NewAnswer(db.messages, run, text.value, after.messages[id])
  }

  lemma NextOrdinalIsFree(messages: map<MessageId, MessageRecord>, c: ConversationId)
    ensures NextFree(messages, c, NextOrdinal(messages, c))
  {
    var ordinals := ConversationOrdinals(messages, c);
    var last := MaxOf(ordinals);
    forall m | m in messages && messages[m].conversation == c ensures messages[m].ordinal < last + 1 {
      assert messages[m].ordinal in ordinals;
    }
    if last != 0 { assert last in ordinals; }
  }

  lemma AnswerIsRecorded(db: Db, run: Run, answer: Text, after: Db)
    requires run.owner.Some? && after.messages == StoreAnswer(db, run, answer)
    ensures Recorded(db, after, run, Some(answer))
  {
    NextOrdinalIsFree(db.messages, run.conversation);
  }

  lemma Unrecorded(db: Db, after: Db, run: Run)
    requires after.messages == db.messages
    ensures Recorded(db, after, run, None)
  {}

  /** The conversation that the run's user owns and the run belongs to is stored. */
  predicate AtHome(db: Db, run: Run) {
    match run.owner
    case None => false
    case Some(u) => run.conversation in db.conversations && db.conversations[run.conversation].owner == u
  }

  /** Only the run's own conversation gets an answer. */
  lemma ResultIsRecorded(db: Db, run: Run, status: Status, bodies: seq<Body>, answer: Option<Text>, now: Time,
                         result: Db, after: Db)
    requires result == PersistResult(db, run, status, bodies, answer, now) && after.messages == result.messages
    requires answer.Some? ==> answer.value != []
    ensures Recorded(db, after, run, if AtHome(db, run) then answer else None)
  {
    if AtHome(db, run) && answer.Some? {
      AnswerIsRecorded(db, run, answer.value, after);
    } else {
      Unrecorded(db, after, run);
    }
  }

  /** What is recorded depends on the run's message, conversation and owner alone. */
  lemma RecordedOfRow(db: Db, after: Db, run: Run, row: Run, text: Option<Text>)
    requires Recorded(db, after, row, text)
    requires row.message == run.message && row.conversation == run.conversation && row.owner == run.owner
    ensures Recorded(db, after, run, text)
  {}

  lemma FinalizedMessages(db: Db, r: RunId, status: Status, bodies: seq<Body>,
                          marked: Option<(MessageId, SafetyAction)>, answer: Option<Text>, error: Option<string>,
                          now: Time, row: Run, after: Db)
    requires Unfinished(db, r) && row == FinishedRow(db.runs[r], status, answer, error, now)
    requires after == FinalizeRun(db, r, status, bodies, marked, answer, error, now)
    ensures after.messages == PersistResult(db, row, status, bodies, answer, now).messages
  {}

  /** Finishing a run stores its answer, if it has one that is not empty. */
  lemma FinishIsRecorded(db: Db, r: RunId, status: Status, bodies: seq<Body>, marked: Option<(MessageId, SafetyAction)>,
                         answer: Option<Text>, error: Option<string>, now: Time, after: Db, text: Option<Text>)
    requires Unfinished(db, r) && after == FinalizeRun(db, r, status, bodies, marked, answer, error, now)
    requires text == if AtHome(db, db.runs[r]) && answer != Some([]) then answer else None
    ensures Recorded(db, after, db.runs[r], text)
  {
    var row := FinishedRow(db.runs[r], status, answer, error, now);
    FinalizedMessages(db, r, status, bodies, marked, answer, error, now, row, after);
    ResultIsRecorded(db, row, status, bodies, if answer == Some([]) then None else answer, now,
                     PersistResult(db, row, status, bodies, if answer == Some([]) then None else answer, now), after);
    RecordedOfRow(db, after, db.runs[r], row, text);
  }
}
