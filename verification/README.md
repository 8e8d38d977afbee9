# The run service of Thesos, modelled and proved in Dafny

Thesos answers questions through runs. A web process and any number of workers share one PostgreSQL
state and change it by short transactions: a run is created against a quota, claimed under a lease,
worked on, streamed as a numbered event log, and closed by exactly one outcome. This project models
those transactions and proves what they keep over every interleaving, stale executors included. It
then follows an answer from the model's stream to the client's screen and to the stored row, and
proves three smaller algorithms of the service.

- `Records` holds the stored tables as values. `Transactions` defines each transaction as a function
  on them. `Store` holds the same transactions as a class that reads rows, assigns fields, loops and
  locks as the service does; each method is proved to take the tables to the state the function gives.
  `Agent` does the same for the durable steps of one execution, and `Worker` for the claim loop.
- `Protocol` is the transition system: the tables plus every execution that a claim or the recovery of a
  restarted worker has started, each with its place in the workflow.
  `RunInvariants`, `RunTransitions`, `LogGrowth`, `Idempotence`, `ChargeSafety`, `StopSafety`, `QuotaSafety`,
  `TerminationGate` and `Lease` prove properties of every history of it.
  `Locks` proves that the order in which the transactions lock rows by name cannot by itself deadlock, and
  which transactions out of that order can.
- `Allowances`, `ClaimOrder`, `Requests`, `Endings`, `AnswerRecords` and `Editing` say what the transactions mean,
  in the columns of the tables and in plain numbers: who is admitted, who is claimed and when, which requests make a
  run, what each ending stores, and what an edit, an upload, a deletion and a sweep remove. Their statements do not
  use the functions that define the transactions, so that a slip in either makes a proof fail.
- `JsonField`, `ObjectText`, `CodePoints`, `Emitter`, `Handlers`, `Stream`, `Client`, `Replay`, `Agreement` and
  `Pipeline` are the answer pipeline: partial decoding, snapshots, resumable streaming, the client's reducer,
  redelivery, and the way from the provider's argument text to both ends. `Screen` is the browser's side of a
  run with the user's stop; `Outcomes` sets it against the server's for every way in which a run can end, and
  `Uploads` says what the browser's next upload makes of the difference.
- `Scenarios` builds, step by step from an empty installation, the histories at which a promise fails.
- `RateLimit`, `PrunePlan` and `Sessions` are the fixed-window limiter, the backup retention planner
  and the throttled session refresh.

Times are microseconds, UTC days are their quotients, digests and identifiers are opaque strings. A
transaction either commits or leaves the tables unchanged. Clock readings, random identifiers, the
set of rows that others have locked, and what the provider returns are parameters of the steps, so
the theorems hold for every choice of them. Answers and titles are sequences of code points, as in
Python, and a lone surrogate is one of them; the client's strings are taken code point by code point too.

Where the code and its documentation or its purpose differ, the model follows the code, and a theorem
says exactly when they part:

- `docs/runbooks/PHASE_3B_PRIVATE_ALPHA.md:43-44` says that a dispatch failure or a cancellation before
  provider work releases the reservation. A release at the attempt limit frees the ledger row but none
  of the counters (`GivingUpLeaksOneUnit`, reached in `GivenUpUnitLeaks`), and a run that was already
  dispatched when it was cancelled keeps its reservation for good (`CancelReleasesOnlyAccepted`,
  `StrandedUnitIsNeverReturned`).
- What the browser shows of an ended run and what the server stores agree exactly as `EveryOutcome` says. They
  part in these ways, each reached from an empty installation. The server stores any nonempty last snapshot of
  a cancelled run, while the client drops a blank one (`BlankPartialIsNotShown`). A run cancelled in the queue
  after it has streamed stores nothing (`QueuedTextIsLeft`), nor does a terminated one (`TerminatedTextIsLeft`) or
  a failed one (`FailureIsNotStored`), while the client keeps text or shows the failure. A user who stops keeps what
  had arrived, while the run goes on until the request is found, and may even complete (`StoppedTextDiffers`,
  `StoppedRunCompletes`). This is the state when the run ends; the browser uploads its copy afterwards, which
  settles the difference unless the text is blank or was left by a termination (`UploadSettles`).
- An edit by the owner of a stored message after the terminated one stores the conversation record as
  open although the gate stays closed, and nothing else does (`TerminatedRecordUnlessEdited`,
  `GateAndRecordPart`, reached in `LaterEditOpensRecord`).
- A run that carries a reused message id can reopen the gate (`ClosedUnlessReopened`, reached in
  `ReusedMessageReopens`); without reuse only an edit, a delete or a purge can.
- The limiter reads its clock before its transaction begins. A window exceeds its limit exactly when more than
  the limit of its calls commit and a sweep that read past the window's end commits between two of them
  (`ExceedsIffParted`, reached in `LateCallExceeds`).
- The handler of a model request never repeats an activity, but the next request starts a new handler; a run
  repeats one exactly as `RepeatsExactly` says (reached in `RetriedRequestRepeats`).
- The decoded text grows with the input in UTF-16 code units (`DecodingIsMonotone`), but in code points it
  does so exactly when the input is not cut between the two halves of an escaped surrogate pair
  (`FieldExtends`, reached in `SplitPairShrinks`). The snapshots do not show it, because the last word is
  withheld (`RevealedBegins`).

`dafny verify dfyconfig.toml` checks the whole project.

## Model

The first 42 rows are the main results; the rest are the members they build on, module by module.

| member | source | states |
|---|---|---|
| ChargeSafety.AnsweredRunsAreCharged | apps/api/src/veris_api/agent.py:80-83 | For every interleaving, stale executors, takeovers and cancels included, a user's completed or terminated run has a charged ledger row, unless a security purge has removed rows that old. |
| ChargeSafety.ChargedBeforeAnswering | apps/api/src/veris_api/agent.py:80-88 | In every reachable state an execution that is about to ask the provider works on a run whose unit is no longer reserved, and is charged while the run is unfinished. |
| ChargeSafety.StrandedUnitIsNeverReturned | apps/api/src/veris_api/db/repository.py:385-427 | A unit still reserved when its run has ended, after any history, is not released by anything that comes later, however long. |
| StopSafety.StoppedIsNeverWorkedOn | apps/api/src/veris_api/db/repository.py:321-326 | Take a reachable state in which an unfinished run has a stop request, no checkpoint, and no execution that has set it working. Over every later history it is never working, completed or terminated, its unit is never charged, and each execution of it that begins is refused. |
| StopSafety.FirstDispatchStops | apps/api/src/veris_api/agent.py:80-83 | A run that a user stops while it is dispatched for the first time is, over every later history, neither charged nor worked on nor answered. |
| StopSafety.CancelledWasRequested | apps/api/src/veris_api/db/repository.py:385-465 | Over every history a run is cancelled, or marked to be stopped, only if some step of the history asked for the stop of that very run. |
| QuotaSafety.QuotaOkAlways | apps/api/src/veris_api/db/quota.py:148-206 | In every reachable state no counter is below its live units or above its limit; a user's units of a day that are not released stay within the account's own number when it is set and not zero, else the installation's, plus the grant row; and no user has more unfinished runs than the setting. |
| Allowances.UnitsStayAllowed | apps/api/src/veris_api/db/quota.py:141-156 | Over every history a user's units of a day stay within the account's own nonzero number, or the installation's, plus the units that the history's grants gave for the day; a stranger has none; unfinished runs stay within the setting. |
| Allowances.AdmittedIff | apps/api/src/veris_api/db/quota.py:137-206 | After any history whose purges have not passed the day, a run is admitted if and only if the account was last switched on, the user's units of the day are below that number, one more fits the counters of the device, the address and the service, and the user's unfinished runs are below the setting; when only the last fails the refusal is for concurrency. |
| QuotaSafety.CountersBalance | apps/api/src/veris_api/db/quota.py:199-224 | Conservation: over any history a counter equals its live ledger units plus its leaks: the units of runs given up and those purged for their age, less what purges cleared from it. |
| QuotaSafety.CountersAreExact | apps/api/src/veris_api/db/quota.py:199-224 | A counter equals its live units unless a release at the attempt limit named it or a purge cutoff fell on its own day. |
| QuotaSafety.PurgeIsInvisible | apps/api/src/veris_api/db/retention.py:85-96 | In every reachable state a security purge changes neither the verdict on any create of a later day than its cutoff nor the allowance shown for that day. |
| RunInvariants.RunsOkAlways | apps/api/src/veris_api/db/repository.py:353-381 | In every reachable state every run is consecutively numbered, its log matches its status, and lease owner and expiry are set together, only while it is dispatched or working. |
| RunTransitions.StepIsTransition | apps/api/src/veris_api/db/repository.py:312-336 | Whatever step but the run sweep is taken by whatever executor or client, each stored run moves by one of five named moves, or stays steady, and its log only grows. |
| RunTransitions.RunsSettle | apps/api/src/veris_api/db/dispatch.py:44-61 | Over any history from an empty installation a run changes status at most 3 * max + 3 times and is claimed at most max times. |
| ClaimOrder.RetriedRunWaits | apps/api/src/veris_api/db/dispatch.py:124-126 | After any history in which a worker gives a run back at time t after k attempts, and whatever follows, the first claim that takes it reads no time before t plus 1, 2, 4, 8, 16 and then always 30 seconds. |
| ClaimOrder.TakenIff | apps/api/src/veris_api/db/dispatch.py:33-61 | A claim takes a run if and only if it is unlocked, has no stop request and attempts left, its next attempt or its lease is due, and no other such run comes before it by next attempt and then creation; its whole row is then the one dispatched for one lease, and nothing else changes. |
| LogGrowth.LogTellsStatus | apps/api/src/veris_api/db/repository.py:371-381 | Over any history in which no sweep came 24 hours or more after the run ended, its log holds exactly one terminal event, of the type of its status, when the status is terminal, and none otherwise. |
| LogGrowth.ClientReceivesTheLog | apps/api/src/veris_api/app.py:269-292 | Whatever history goes on meanwhile, without a sweep a day after the run ended, and however often the client reconnects, it receives the run's log from event 1 on without gap or repeat, and all of it up to the first terminal event once it has one. |
| Idempotence.RetryReturnsTheRun | apps/api/src/veris_api/db/repository.py:63-70 | In every reachable state a create with the key and sender of a stored run returns that very run and changes nothing, the quota included. |
| Requests.RequestIff | apps/api/src/veris_api/db/repository.py:46-254 | A request makes a run if and only if no stored run has its key and sender, none of the sender's controls ended the conversation, a user's conversation and allowance admit it, and every unique column is free; then the conversation, the uploaded history, the user's message and the control are stored column by column as given. |
| TerminationGate.OnlyEditDeleteOrPurgeReopens | apps/api/src/veris_api/db/repository.py:538-564 | Over histories that do not reuse message ids, a step reopens the gate if and only if it is an edit at or before it, a delete of the conversation or a purge of its run. |
| TerminationGate.ClosedGateRefuses | apps/api/src/veris_api/db/repository.py:77-86 | Once the gate has closed, every create for the conversation that is not a retry is refused and changes nothing, after any history without an opener. |
| TerminationGate.TerminatedRecordUnlessEdited | apps/api/src/veris_api/db/repository.py:549-564 | While the gate is closed and the stored record is terminated, a step removes the record if and only if it is its owner's delete, and stores it as open if and only if it is its owner's edit of a stored message of theirs. |
| Lease.ClaimedRunIsKept | apps/api/src/veris_api/runtime.py:57-82 | From an empty installation: after any history and a claim, a punctually polling worker never loses its unfinished run. |
| Lease.TwoThirdsIsExact | apps/api/src/veris_api/runtime.py:71-81 | Without latency every punctual loop keeps its lease if and only if the poll takes at most two thirds of it. |
| Locks.NoCycle | apps/api/src/veris_api/db/repository.py:353-364 | No reachable wait-for graph of transactions that lock in rank order has a cycle. |
| Locks.DeadlockIffCross | apps/api/src/veris_api/db/repository.py:353-364 | Two transactions that run alone can come to wait for each other if and only if each has, among the rows it locks before some row, one that the other wants next, the rows held being disjoint. |
| JsonField.PrefixDecoding | apps/api/src/veris_api/agent_events.py:53-82 | For every prefix of a valid JSON string body (section 7 of RFC 8259) the decoder shows exactly the code units of the whole tokens received. |
| CodePoints.FieldExtends | apps/api/src/veris_api/agent_events.py:53-82 | Counted in code points, a longer prefix of the arguments extends what a shorter one shows if and only if the shorter one does not end its tokens between the halves of a surrogate pair that the longer one completes. |
| ObjectText.FieldOpensAtFirst | apps/api/src/veris_api/agent_events.py:55-59 | In the text of a flat JSON object the search ends at the opening quote of a member whose quoted name ends in the field's if and only if no member before it has such a name and a string value; the field's text inside values, null answers and other members do not matter. |
| Emitter.StreamKeepsUp | apps/api/src/veris_api/agent_events.py:120-161 | Progress, while what each streamed answer reveals begins the next (PartsFormChain): after every start and every delta of an output part whose action is answer or urgent_safety, and for all that was streamed before, the last snapshot is less than 24 characters behind the last whole word of the streamed answer. |
| Pipeline.ArgumentsReachBoth | apps/api/src/veris_api/agent.py:117-146 | From the argument text to both ends: however it is cut into chunks, when the run's answer events end with those of its handler, a browser that follows the stream to its end shows and the server stores the answer's code points. |
| Replay.AnyRedeliveryIsHarmless | apps/web/src/features/chat/useChatController.ts:87-226 | Any number of nested redeliveries before the closing stretch changes nothing. |
| Outcomes.EveryOutcome | apps/api/src/veris_api/db/repository.py:339-465 | Whatever the history, by whichever of the steps a run ends, and whether the user has followed its stream to the end or stopped it at any moment: what the browser shows, the whole record the server stores (owner, conversation, position, role, text and state of the answer, every other message unchanged, nothing in a conversation that is not the user's), and the exact condition on the log, the ending and what was heard under which the two texts agree. |
| Endings.EveryEndingIs | apps/api/src/veris_api/db/repository.py:339-465 | Whatever the history and however a run ends, every column afterwards: the closed row and its numbered events, the answer's record, the conversation's title, end, revision and time, the control's action, the ledger, and no other row. |
| Uploads.UploadSettles | apps/web/src/features/chat/storage.ts:76-79 | The next upload of a browser that is done with a run makes both sides agree if and only if it shows no response, or one that is not blank and was not left streaming by a termination; a conversation with a response left streaming is not uploaded. |
| RateLimit.AllowedIffRoom | apps/api/src/veris_api/db/rate_limits.py:46-61 | Over any history of calls and sweeps, in whatever order their readings commit, a call is allowed if and only if fewer than the limit of calls of its aligned window committed since the last sweep past the window's end, and returns the next count. |
| RateLimit.ExceedsIffParted | apps/api/src/veris_api/db/rate_limits.py:46-61 | A window exceeds its limit if and only if more than the limit of its calls commit and a sweep that read past its end commits between two of them; clock readings may commit in any order. |
| RateLimit.SlidingBound | apps/api/src/veris_api/db/rate_limits.py:31-33 | On the same condition for the calls of the action and subject, at most twice the limit is allowed in any interval one window long, wherever it starts. |
| PrunePlan.PlanIsFixpoint | infra/scripts/prune-object-storage.py:27-59 | Planning again on the surviving inventory deletes nothing. |
| Sessions.RefinesIdeal | apps/api/src/veris_api/db/identity.py:416-437 | Over any nondecreasing requests, each accepted one is one the per-request idle policy accepts. |
| RunInvariants.AllocatorsAgree | apps/api/src/veris_api/db/dispatch.py:19-27 | The allocator that reads the stored maximum and the one that trusts the run's counter choose the same next number. |
| RunInvariants.ReleasedKeepsOk | apps/api/src/veris_api/db/dispatch.py:92-133 | Giving a run back, although it checks the owner only, keeps the log, numbering and lease invariants, because a lease owner implies dispatched or working. |
| RunInvariants.ClosingLeavesOneTerminal | apps/api/src/veris_api/db/repository.py:371-381 | Appending a closing list to a log in progress leaves exactly one terminal event, the last. |
| RunTransitions.StepKeepsRow | apps/api/src/veris_api/db/retention.py:29-62 | Every step, the run sweep included, leaves a run it does not remove with its identity and moves it by one of those moves or leaves it steady. |
| RunTransitions.StepMovesOneRun | apps/api/src/veris_api/db/dispatch.py:44-61 | Apart from creates and sweeps a step changes at most one run row, and only by one of the named moves. |
| RunTransitions.TerminalIsAbsorbing | apps/api/src/veris_api/db/repository.py:321-326 | No step leaves a terminal status, and none moves the time at which the run ended. |
| RunTransitions.OnlySweepRemoves | apps/api/src/veris_api/db/retention.py:48-61 | Only the retention sweep removes a run, and only a finished one. |
| RunTransitions.NewRunIsUnstarted | apps/api/src/veris_api/db/repository.py:228-254 | A run that appears in a sound state was made by a create, under an identifier never used before, as an unstarted run. |
| RunTransitions.StatusChangeDescends | apps/api/src/veris_api/db/dispatch.py:98-126 | Every change of status moves the run strictly down the lexicographic order of claims left, lease present and rank of the status. |
| RunTransitions.ClaimCountsAttempt | apps/api/src/veris_api/db/dispatch.py:56-60 | The attempt counter grows by one exactly when a claim takes the run, and by nothing else. |
| RunTransitions.RetryDelayBounds | apps/api/src/veris_api/db/dispatch.py:124-126 | Every retry delay lies between 1 and 30 seconds; the first is 1, and each doubles the last up to 30. |
| ClaimOrder.RetriedRunCanBeTaken | apps/api/src/veris_api/db/dispatch.py:33-61 | A run given back is taken by the next claim if and only if its delay is over, it is unlocked and unasked, and no free run that is ready comes before it. |
| ClaimOrder.EarlierGoesFirst | apps/api/src/veris_api/db/dispatch.py:51-53 | Of two free runs, one of them ready, the one with the later next attempt, or the same and a later creation, is not taken. |
| ClaimOrder.RetryGivesBack | apps/api/src/veris_api/db/dispatch.py:88-133 | Giving a run back leaves exactly the row that is queued after its delay, or failed at the attempt limit, with its one event; only the lease owner can. |
| ClaimOrder.CreatedRunIs | apps/api/src/veris_api/db/repository.py:206-254 | A created run is accepted, unclaimed, due at once, kept for the retention days and has the one event numbered 1. |
| LogGrowth.LogOnlyGrows | apps/api/src/veris_api/db/repository.py:276-291 | Every step but the retention sweep leaves a stored run's log as it was or longer. |
| LogGrowth.IntactUnlessScrubbed | apps/api/src/veris_api/db/retention.py:34-47 | Over any history every event ever appended to a stored run is still in its log, unless a sweep came 24 hours or more after the run ended. |
| LogGrowth.SequencesAreExact | apps/api/src/veris_api/db/repository.py:294-299 | Over any history in which no sweep came 24 hours or more after the run ended, its event numbers are exactly 1 to its counter. |
| LogGrowth.UnfinishedIsWhole | apps/api/src/veris_api/db/retention.py:34-47 | In every reachable state an unfinished run has all its events, numbered 1 to its counter; no sweep touches it. |
| LogGrowth.EarlierLogIsPrefix | apps/api/src/veris_api/db/repository.py:302-309 | Over any history that does not scrub the run, what was logged at an earlier moment is a prefix of what is logged later, as long as the run is stored. |
| Idempotence.KeysUniqueAlways | apps/api/src/veris_api/db/repository.py:58-70 | In every reachable state no two stored runs share an idempotency key with the same user or the same session. |
| Idempotence.CreateIsNew | apps/api/src/veris_api/db/repository.py:228-253 | A create that makes a run found none with its key for its sender or its session. |
| Idempotence.CreatedRunIsFound | apps/api/src/veris_api/db/repository.py:206-254 | A run that a create has made is matched by the same request. |
| Requests.RetryFindsOwnRun | apps/api/src/veris_api/db/repository.py:58-70 | A request whose key and sender a stored run has changes nothing and returns a run with that key and that sender, the user's or the session's. |
| ChargeSafety.ChargeOkAlways | apps/api/src/veris_api/db/quota.py:227-234 | In every reachable state: a released unit belongs to a failed or cancelled run, no execution past the charge leaves a unit reserved, and every answered run's unit is charged. |
| ChargeSafety.ChargeIsFinal | apps/api/src/veris_api/db/quota.py:249-257 | No step releases or alters a charged row; only the security purge removes it. |
| ChargeSafety.CreateLedger | apps/api/src/veris_api/db/quota.py:199-224 | A create that succeeds for a user was admitted by every quota check and reserved exactly one unit in the ledger and in each counter it names. |
| ChargeSafety.CancelReleasesOnlyAccepted | apps/api/src/veris_api/db/repository.py:439-465 | Asking and then cancelling gives the reserved unit back exactly when the run was still accepted; a dispatched run's unit and counters stay. |
| StopSafety.RequestInTime | apps/api/src/veris_api/db/repository.py:430-465 | A stop request for a dispatched run that no execution has begun to work on leads to such a state, so the same holds of every later history. |
| StopSafety.WorkIsBegunAlways | apps/api/src/veris_api/agent.py:80-88 | In every reachable state a run that works or whose unit is charged has a checkpoint or an execution that set it working, and whoever asks the provider is recorded. |
| StopSafety.OnlyBeginBegins | apps/api/src/veris_api/agent.py:80-82 | No step makes a run one that has begun, except a begin that finds it stored, unfinished and without a stop request. |
| StopSafety.OnlyBeginWorks | apps/api/src/veris_api/db/repository.py:321-328 | No step sets a run working, except such a begin. |
| QuotaSafety.StepSurplus | apps/api/src/veris_api/db/quota.py:258-287 | Each step changes counter minus live units by exactly its leak: the unit of a run given up, plus the live units a purge deletes for their age, less what the purge clears from the counter. |
| QuotaSafety.GivingUpLeaksOneUnit | apps/api/src/veris_api/db/dispatch.py:98-108 | A release at the attempt limit frees the ledger row but leaves every counter of the row one too high. |
| Scenarios.GivenUpUnitLeaks | apps/api/src/veris_api/db/dispatch.py:98-108 | From an empty installation with one attempt allowed: after ask, claim and give-up the service's counter of the day is one and no unit is live under it. |
| QuotaSafety.NoDecrementIsClamped | apps/api/src/veris_api/db/quota.py:273-287 | In reachable states a release finds each of its counters at one or more, so no clamp at zero fires. |
| QuotaSafety.LiveRowsAreCounted | apps/api/src/veris_api/db/quota.py:273-287 | Where counters cover their live units, each counter a live row names exists and is at least one. |
| QuotaSafety.PurgeKeepsNamedCounters | apps/api/src/veris_api/db/retention.py:85-93 | A security purge deletes no counter while a ledger row of its day remains. |
| QuotaSafety.RemainingIsExact | apps/api/src/veris_api/db/quota.py:115-121 | In reachable states the remaining allowance shown is exactly limit minus used. |
| Allowances.PageShowsAllowed | apps/api/src/veris_api/db/quota.py:90-123 | After any history whose purges have not passed the day, the page shows as limit the number of UnitsStayAllowed, as used the units held, and as remaining the difference, which is not negative. |
| Allowances.SharedUnitsStayWithin | apps/api/src/veris_api/db/quota.py:162-197 | Over every history the units of a day that are not released stay within the settings for each device, each address and the service. |
| Allowances.CreateTakesOneUnit | apps/api/src/veris_api/db/quota.py:207-224 | On a day that no purge has passed, each run created for a user adds one reserved ledger row of that day and one to the counters of its device, its address and the service, all of which had room. |
| Allowances.RequestGivesBack | apps/api/src/veris_api/db/quota.py:243-288 | In every reachable state a stop request for a run that waits takes exactly that one back from the same counters and releases the row; for a dispatched run it touches neither. |
| Allowances.ChargeTakesTheUnit | apps/api/src/veris_api/db/quota.py:227-234 | The charge of an execution that set its run working turns the reserved row into a charged one and changes nothing else. |
| Allowances.GrantsAlways | apps/api/src/veris_api/db/admin.py:383-405 | Over every history accounts and their own limits stay, and a day's grant row is the sum of the history's grants until a purge passes the day. |
| Allowances.PurgeRemovesOldUnits | apps/api/src/veris_api/db/retention.py:85-96 | A security purge removes exactly the rows reserved more than ninety days before, and the counters and grants of days before that one. |
| TerminationGate.ClosedRefusesOpenUploads | apps/api/src/veris_api/db/conversations.py:100-114 | While the gate is closed no upload by any client leaves the conversation stored as open. |
| TerminationGate.ClosedUnlessReopened | apps/api/src/veris_api/db/repository.py:365-370 | A closed gate stays closed over a step exactly when the step is not an edit at or before it, a delete, a purge of its run or another finish of the same message. |
| TerminationGate.GateAndRecordPart | apps/api/src/veris_api/db/repository.py:549-564 | Over a step the gate stays closed while the record becomes open if and only if the owner edits a stored message of theirs that comes after the terminated one. |
| TerminationGate.HousedAlways | apps/api/src/veris_api/db/repository.py:100-134 | In every reachable state a user's control lies in a stored conversation of that user. |
| TerminationGate.GateStands | apps/api/src/veris_api/db/repository.py:77-86 | Over any history in which no step is an opener the gate stays closed. |
| TerminationGate.RecordStands | apps/api/src/veris_api/db/conversations.py:100-114 | From any reachable state with a closed gate and a terminated record, the record stays terminated over any history without an opener and without such an edit. |
| Editing.EditRemovesTheRest | apps/api/src/veris_api/db/repository.py:525-583 | An edit removes exactly the sender's controls from the edited one on and, for a user's stored message, exactly that user's messages of the conversation from it on, reopening the conversation; without the sender's control it changes nothing. |
| Editing.UploadReplaces | apps/api/src/veris_api/db/conversations.py:72-145 | An upload is stored if and only if the conversation is new or the user's and no message that stays is stored elsewhere or comes twice; then the conversation holds exactly those messages, each with its role, text, state and position, an ended conversation stays ended, and nothing else changes. |
| Editing.DeleteRemovesAll | apps/api/src/veris_api/db/conversations.py:148-164 | A deletion by the owner removes exactly the conversation, its messages and the user's controls of it; any other changes nothing. |
| Editing.SweepRemovesLapsed | apps/api/src/veris_api/db/retention.py:29-62 | A sweep removes exactly the finished runs whose time has come, with the controls of their messages, and empties exactly the answer and the log of runs that ended a day before. |
| Scenarios.LaterEditOpensRecord | apps/api/src/veris_api/db/repository.py:549-564 | A history from an empty installation after which an edit of a later message leaves the gate closed and the record open. |
| Scenarios.ReusedMessageReopens | apps/api/src/veris_api/db/repository.py:365-370 | A history from an empty installation that closes the gate with a message id used twice, after which the first run's ordinary answer reopens it. |
| Stream.SendPending | apps/api/src/veris_api/app.py:274-287 | Sends the pending events in order, up to and including the first terminal one, and reports whether there was one. |
| Stream.EventStream | apps/api/src/veris_api/app.py:269-292 | The events of one connection are exactly what its reads determine, with exactly one heartbeat at each fortieth read in a row that finds nothing, and so at most one for every forty reads. |
| Stream.QuietBeats | apps/api/src/veris_api/app.py:288-292 | A connection that finds nothing in n more reads sends a heartbeat at exactly each fortieth of them. |
| Stream.ConnectionSendsStretch | apps/api/src/veris_api/db/repository.py:302-309 | Over a growing log a connection sends the consecutive events right after Last-Event-ID, none twice, none past the first terminal event. |
| Stream.ReconnectsAddUp | apps/api/src/veris_api/app.py:269-287 | Over any series of reconnects the client receives a prefix of the log up to its first terminal event, without gap or repeat, and all of it once it has a terminal event. |
| Emitter.RevealableIsLongestBreak | apps/api/src/veris_api/agent_events.py:94-96 | The revealable part of an answer is its longest prefix that is empty or ends in a space, newline or tab. |
| Emitter.Handler.SetActivity | apps/api/src/veris_api/agent_events.py:109-118 | Announces an activity unless it is the last one announced. |
| Emitter.Handler.EmitSnapshot | apps/api/src/veris_api/agent_events.py:120-131 | Emits, after one start, a snapshot that is new; a partial one ends in a break and is at least 24 characters longer. Afterwards the last snapshot is less than 24 characters behind the last whole word, and a final call has shown the full answer. |
| Emitter.Handler.PersistEvents | apps/api/src/veris_api/agent_events.py:133-176 | Handles part events one by one: what it sends equals the fold of the reactions, and from a fresh handler the last snapshot is less than 24 characters behind the last whole word of everything streamed. |
| Emitter.StreamingSnapshots | apps/api/src/veris_api/agent_events.py:120-131 | While a part streams, the snapshots form a strictly growing prefix chain of whole words, each at least 24 characters longer, after a single start, and the last of them is never 24 characters behind a whole word of what was streamed. |
| Emitter.AnswerIsShown | apps/api/src/veris_api/agent_events.py:133-161 | Whatever came before, right after a start or a delta of an answer or an urgent_safety part the last snapshot is less than 24 characters behind the last whole word of what was streamed, and right after the end it is the full answer. |
| Emitter.PartSnapshots | apps/api/src/veris_api/agent_events.py:120-161 | When such a part ends, the snapshots grow strictly, all but the last end in a break, the last is the full answer, and they number at most length/24 + 1. |
| Emitter.OthersShowNothing | apps/api/src/veris_api/agent_events.py:141-161 | Of output parts with any other action no start and no snapshot is sent. |
| Emitter.NoActivityTwiceRunning | apps/api/src/veris_api/agent_events.py:107-118 | Over any part events of one handler no activity is announced twice running, counting the Thinking that was announced before. |
| Emitter.ActivityFollows | apps/api/src/veris_api/agent_events.py:133-176 | After every part event the last activity announced is the one that event stands for, or the previous one. |
| Emitter.ToolsAreLogged | apps/api/src/veris_api/agent_events.py:162-175 | The tool events sent are exactly one start for each call and one completion for each return, in order. |
| Handlers.RepeatsExactly | apps/api/src/veris_api/agent_events.py:106-118 | Over any number of handlers in a row, as retried model requests start them, a run announces an activity twice running if and only if some handler first sets, other than Thinking, the activity announced last before it. |
| Handlers.RetriedRequestRepeats | apps/api/src/veris_api/agent.py:55-66 | A request retried after its output call has begun announces Composing twice running. |
| JsonField.ClosingQuote | apps/api/src/veris_api/agent_events.py:60-69 | The scan finds the first quote that no backslash escapes, or none. |
| JsonField.PartialJsonStringField | apps/api/src/veris_api/agent_events.py:53-82 | Search, scan and trim loops compute the field value as defined, for any argument text. |
| JsonField.LoadsTokens | apps/api/src/veris_api/agent_events.py:77-78 | The standard decoder decodes the spelling of any valid tokens to exactly their code units. |
| JsonField.CutTokenFails | apps/api/src/veris_api/agent_events.py:73-82 | Valid tokens followed by a token cut short do not decode. |
| JsonField.EnclosedPrefix | apps/api/src/veris_api/agent_events.py:60-71 | In any prefix of a valid body, its quote and more text, the scan stops at the true closing quote. |
| JsonField.FieldEndStable | apps/api/src/veris_api/agent_events.py:55-59 | Once the field's opening quote has arrived, later text never moves the match. |
| JsonField.TrimsAtMostFive | apps/api/src/veris_api/agent_events.py:75-81 | At most five characters are trimmed, and every smaller trim fails to decode. |
| JsonField.DecodingIsMonotone | apps/api/src/veris_api/agent_events.py:53-82 | Longer input extends what is shown, counted in UTF-16 code units. |
| JsonField.DecodingCompletes | apps/api/src/veris_api/agent_events.py:70-71 | Once the closing quote has arrived exactly the whole value is shown. |
| CodePoints.LoadsPoints | apps/api/src/veris_api/agent_events.py:77-78 | The standard decoder decodes the spelling of any valid tokens to their code points, a high and a low half that stand together as one. |
| CodePoints.FieldIsPoints | apps/api/src/veris_api/agent_events.py:53-82 | For every prefix of the arguments after the field's opening quote the field value is the code points of the tokens that have arrived whole. |
| CodePoints.SplitPairShrinks | apps/api/src/veris_api/agent_events.py:53-82 | An emoji sent as an escaped pair and cut in its middle: the field value of the half is no prefix of that of the whole. |
| CodePoints.RevealedBegins | apps/api/src/veris_api/agent_events.py:94-96 | Wherever the cut falls, what fewer tokens let be revealed begins the text of more tokens: the withheld last word covers a split pair. |
| Pipeline.ObjectArguments | apps/api/src/veris_api/agent_events.py:55-59 | Such an object text is one to which the pipeline theorems apply if and only if the answer is its first such member. |
| Pipeline.FieldOfPrefix | apps/api/src/veris_api/agent_events.py:53-82 | For any prefix of the whole argument text, before its field opens too, the field value is the code points of the tokens it has brought. |
| Pipeline.PartsFormChain | apps/api/src/veris_api/agent_events.py:133-161 | However the arguments are cut into chunks, each streamed answer begins with what the earlier ones let be revealed. |
| Client.FinalizeCancelled | apps/web/src/features/chat/useChatController.ts:54-75 | A cancellation keeps a nonblank partial answer as complete and removes the response otherwise. |
| Client.UpdateMessages | apps/web/src/features/chat/useChatController.ts:94-196 | Each event replaces, adds or keeps the run's one response, and nothing else in the list. |
| Client.UpdateFromEvent | apps/web/src/features/chat/useChatController.ts:87-226 | The update callback equals the reducer on every event, or ignores it once the user has asked to stop. |
| Screen.ActiveRun.Receive | apps/web/src/features/chat/useChatController.ts:87-240 | An event reaches the reducer unless a stop was requested and it is no cancellation; a terminal one ends the active run. |
| Screen.ActiveRun.Stop | apps/web/src/features/chat/useChatController.ts:367-379 | A stop marks the context, settles what is shown and gives up the active run; without an active run it does nothing. |
| Screen.WatchShowsSeen | apps/web/src/features/chat/useChatController.ts:87-89 | Whatever order events and stops come in: the screen is the fold of what arrived before the first stop that precedes the end, and after it keeps exactly the text that is not blank. |
| Replay.ReduceActsOnResponse | apps/web/src/features/chat/useChatController.ts:94-196 | One event changes the run's response alone: other messages keep content and order, and there is at most one response. |
| Replay.StretchTwice | apps/web/src/features/chat/useChatController.ts:87-226 | Delivering a server-produced stretch twice leaves the response that delivering it once leaves. |
| Replay.FoldTwice | apps/web/src/features/chat/useChatController.ts:87-226 | Folding a server-produced stretch twice gives the same conversation as folding it once. |
| Replay.RedeliveryIsHarmless | apps/web/src/features/chat/useChatController.ts:87-226 | Folding pre + stretch + stretch + post equals folding pre + stretch + post, with at most one response and all other messages untouched. |
| Replay.DeltaIsNotIdempotent | apps/web/src/features/chat/useChatController.ts:145-167 | Redelivering the legacy delta is harmless exactly when it is empty. |
| Replay.ResponseRecord | apps/web/src/features/chat/useChatController.ts:94-196 | The response on screen has the run's identifier, the assistant's role and the time of an event of the run; it streams while the run goes on and is complete or failed as the last event says. |
| Agreement.ActivityOfFold | apps/web/src/features/chat/useChatController.ts:200-224 | The last event sets the time and, if it says so, the activity on screen; the pin stays. |
| Agreement.ShowsLastSnapshot | apps/web/src/features/chat/useChatController.ts:126-143 | Over a log in progress the response exists exactly when an answer event was sent, and shows the last snapshot. |
| Agreement.StreamedAnswerReachesBoth | apps/api/src/veris_api/db/repository.py:494-520 | When the run's answer events end with those its handler sent for one output part, after whatever an earlier attempt left, the server and a browser that follows the stream to its end both end with the part's full answer. |
| Outcomes.EveryEndIsOne | apps/api/src/veris_api/db/repository.py:321-326 | There is no other way to end: a step that is not a turn, a failure, a cancellation by the worker, a cancellation in the queue or the last release leaves an unfinished run unfinished. |
| Outcomes.StepEnds | apps/api/src/veris_api/db/repository.py:385-465 | Each of these steps leaves the status, the closing events and the stored response of its kind, with or without a stored conversation of the run's user; a cancellation in the queue stores nothing. |
| AnswerRecords.ResultIsRecorded | apps/api/src/veris_api/db/repository.py:468-522 | The text goes into the run's own message and no other, in the conversation of the run's user and in no other: a new record is the assistant's, complete, one position after the last; an old one keeps its place and role. |
| AnswerRecords.FinishIsRecorded | apps/api/src/veris_api/db/repository.py:339-382 | Finishing a run stores its answer, if it is not empty, as that record, and touches no other message. |
| Endings.ReportIsLogged | apps/api/src/veris_api/db/repository.py:276-291 | What an answering execution reports becomes the next numbered event of its run and changes nothing else. |
| Endings.RequestIsMarked | apps/api/src/veris_api/db/repository.py:430-465 | A stop request for a dispatched or working run marks it, adds the one event that says so, and changes nothing else. |
| Outcomes.CompleteIff | apps/api/src/veris_api/agent.py:59-70 | An answer is accepted as complete if and only if its last character that is no space is one of the six marks or ends a code fence. |
| Outcomes.FailedRunsAgree | apps/api/src/veris_api/agent.py:149-167 | A browser that has heard a run fail never shows what the server stores; one that was stopped before does exactly when what it had shown is blank. |
| Scenarios.TerminatedTextIsLeft | apps/api/src/veris_api/agent.py:107-115 | A history from an empty installation, one streamed snapshot and then termination, after which a browser that follows it shows text that the server does not store. |
| Scenarios.FailureIsNotStored | apps/api/src/veris_api/agent.py:149-167 | A history from an empty installation, one streamed snapshot and then a failure, after which a browser that follows the run shows the failure and the server stores no response. |
| Scenarios.BlankPartialIsNotShown | apps/api/src/veris_api/db/repository.py:391-416 | A history from an empty installation, one blank snapshot and then a cancellation, after which the server stores an answer that a browser that follows the run does not show. |
| Scenarios.QueuedTextIsLeft | apps/api/src/veris_api/db/repository.py:440-452 | A history from an empty installation: a run that has streamed is given back and then cancelled in the queue; the browser shows the text and the server stores none. |
| Scenarios.StoppedTextDiffers | apps/web/src/features/chat/useChatController.ts:367-376 | A history from an empty installation: the user stops after the first snapshot, the run streams a second before the worker finds the request; the browser keeps the first and the server stores the second. |
| Scenarios.StoppedRunCompletes | apps/api/src/veris_api/db/repository.py:353-364 | A history from an empty installation: the user stops after the first snapshot and the run completes all the same; the browser keeps the snapshot and the server stores the answer. |
| Agreement.HeaderOfFold | apps/web/src/features/chat/useChatController.ts:200-224 | Over any events the reducer leaves the last title sent, and the conversation ended exactly if an end was sent. |
| Agreement.HeadersAgree | apps/api/src/veris_api/db/repository.py:488-493 | After any valid turn the client and the stored conversation agree on termination and on the title: none a valid turn carries reaches the 80 characters at which the server clips. |
| RateLimit.WindowStart | apps/api/src/veris_api/db/rate_limits.py:19-21 | The window start is a multiple of the length, at or before the reading and less than one length away. |
| RateLimit.Limiter.ConsumeRateLimit | apps/api/src/veris_api/db/rate_limits.py:24-61 | A call counts itself in its window, and is rolled back and refused when that exceeds the limit. |
| RateLimit.AllowedIsGranted | apps/api/src/veris_api/db/rate_limits.py:46-61 | Over any history the number of calls allowed in a window is the number granted by counting calls from the last such sweep. |
| RateLimit.LateCallExceeds | apps/api/src/veris_api/db/rate_limits.py:31-45 | A concrete history: a sweep that commits between a call's reading and its commit lets a window exceed its limit. |
| RateLimit.WindowBound | apps/api/src/veris_api/db/rate_limits.py:46-61 | At most the limit is allowed in any aligned window, unless a call of it commits after a sweep that read past its end; clock readings may commit in any order. |
| RateLimit.TwiceIsReached | apps/api/src/veris_api/db/rate_limits.py:31-33 | For every limit and window, twice the limit is reached within one window's length. |
| RateLimit.CountsWithinLimit | apps/api/src/veris_api/db/rate_limits.py:58-61 | At every moment of every history each stored count lies between 1 and the limit of its action. |
| RateLimit.SweepIsInvisible | apps/api/src/veris_api/db/retention.py:72 | A retention sweep changes no call whose window it has not read past, and makes every other call the first of its window. |
| RateLimit.RetryAfterIsNearest | apps/api/src/veris_api/db/rate_limits.py:60 | The advised wait lies in 1..window and is the time to the window's end to the nearest second, but at least one. |
| PrunePlan.EncryptedIsSorted | infra/scripts/prune-object-storage.py:15-24 | The listing holds exactly the encrypted backups of the inventory, newest first. |
| PrunePlan.EqualTimesKeepOrder | infra/scripts/prune-object-storage.py:16-24 | Backups of the same moment keep their inventory order. |
| PrunePlan.ChooseKept | infra/scripts/prune-object-storage.py:30-43 | The greedy loop keeps exactly the first `daily` backups and, of the others, the first of each new week while fewer than `weekly` weeks opened before. |
| PrunePlan.DeletionPlan | infra/scripts/prune-object-storage.py:27-59 | The plan holds exactly the backups that are not kept and the checksums whose backup is not kept. |
| PrunePlan.ChecksumFollowsBackup | infra/scripts/prune-object-storage.py:51-58 | A checksum is deleted if and only if its backup is deleted or absent. |
| PrunePlan.OthersAreSpared | infra/scripts/prune-object-storage.py:45-58 | Nothing is deleted but inventory objects that are backups or checksums. |
| PrunePlan.WeeklyIsNewest | infra/scripts/prune-object-storage.py:37-43 | A backup kept for its week is the newest of that week. |
| PrunePlan.DroppedIsCovered | infra/scripts/prune-object-storage.py:37-43 | A dropped backup has a kept one of its week that is at least as new, or daily + weekly newer ones are kept. |
| PrunePlan.KeptCount | infra/scripts/prune-object-storage.py:31-43 | The kept backups number the daily ones plus the new weeks, up to the weekly count. |
| Sessions.AuthSession.constructor | apps/api/src/veris_api/db/identity.py:354-380 | A login sets the idle and absolute ends from now. |
| Sessions.AuthSession.Authenticate | apps/api/src/veris_api/db/identity.py:416-437 | A request is accepted before both ends of an unrevoked session, and moves the idle end only when the last refresh is five minutes old, never past the absolute end. |
| Sessions.WithinGapIsAccepted | apps/api/src/veris_api/db/identity.py:430-437 | A request at most idle minus five minutes after the last accepted one, before the absolute end, is accepted. |
| Sessions.BeyondIdleIsRefused | apps/api/src/veris_api/db/identity.py:416-422 | A request an idle length or more after the last accepted one, or at the absolute end, is refused. |
| Sessions.GapIsTight | apps/api/src/veris_api/db/identity.py:430-437 | One microsecond beyond that gap a request can be refused that the ideal policy accepts. |
| Sessions.AbsoluteStands | apps/api/src/veris_api/db/identity.py:437 | No refresh sets the idle end past the absolute end, which stays where the login put it. |
| Sessions.RevokedIsFinal | apps/api/src/veris_api/db/identity.py:451-458 | After revocation no request at any later time is accepted, and none revives the session. |
| Lease.ClaimLeavesHeldRuns | apps/api/src/veris_api/db/dispatch.py:33-60 | In every reachable state no claim touches a run whose lease has not expired. |
| Lease.KeepLease | apps/api/src/veris_api/runtime.py:68-81 | The polling loop renews exactly when a third of the lease has passed on its own clock. |
| Lease.RenewsBeforeExpiry | apps/api/src/veris_api/runtime.py:71-81 | When 3 * (poll + latency) <= 2 * lease, each renewal of a punctual loop commits before the lease in force expires, and at every check that lease is running. |
| Lease.SettingsFit | apps/api/src/veris_api/config.py:78-79 | The bounds of the settings, lease at least 15 s and poll at most 10 s, meet that condition without latency. |
| Lease.SlowPollLapses | apps/api/src/veris_api/runtime.py:76-81 | When the poll exceeds two thirds of the lease, this punctual loop renews after the lease has expired. |
| Lease.GuardedOneStep | apps/api/src/veris_api/db/dispatch.py:64-77 | A held lease survives every step before its expiry unless the step ends the run or the worker gives it up. |
| Lease.LiveWorkerKeepsRun | apps/api/src/veris_api/runtime.py:71-81 | Whatever others commit up to a punctual loop's latest check, the run is over or still leased to its worker. |
| Lease.ClaimStartsLease | apps/api/src/veris_api/db/dispatch.py:56-60 | A claim in any reachable state starts a lease of full length. |
| ClaimOrder.RenewalIs | apps/api/src/veris_api/db/dispatch.py:64-77 | A renewal by the owner of a dispatched or working run moves the end of the lease to exactly its length after the reading; any other changes nothing. |
| Locks.OrderAlways | apps/api/src/veris_api/db/quota.py:136-193 | In every reachable lock table each transaction holds only rows that rank below all it has still to lock. |
| Locks.SomeoneCanMove | apps/api/src/veris_api/db/quota.py:249-282 | As long as transactions are running, one of them can lock its next row or finish. |
| Locks.EditDeadlocksIff | apps/api/src/veris_api/db/repository.py:557-582 | An edit can deadlock with a transaction that locks in rank order if and only if that one locks the conversation and afterwards the control of a message the edit removes. |
| Locks.OnlyFinishLocksBackwards | apps/api/src/veris_api/db/repository.py:353-370 | A finish does so exactly for a message of that conversation which the edit removes; a transaction that locks no control never does. |
| Locks.EditDeadlocksWithDelete | apps/api/src/veris_api/db/conversations.py:148-164 | An edit and a delete of the same conversation can deadlock if and only if both delete some control. |
| Store.AllocateEventSequence | apps/api/src/veris_api/db/repository.py:294-299 | Returns the run's counter plus one, whatever the stored maximum. |
| Store.AppendAll | apps/api/src/veris_api/db/repository.py:371-381 | Appending events one by one, each with a freshly allocated number, equals the specified append. |
| Store.Retitle | apps/api/src/veris_api/db/repository.py:490-493 | The loop over the events leaves the last title, clipped to 80 characters. |
| Store.Database.AddEvent | apps/api/src/veris_api/db/repository.py:276-291 | Appends one numbered event to a stored run, also after its end, or reports that the run is missing. |
| Store.Database.SetWorking | apps/api/src/veris_api/db/repository.py:312-336 | Sets a run working and says so if and only if it is stored, has not ended and has no stop request; otherwise the tables stay. |
| Store.Database.PersistConversationResult | apps/api/src/veris_api/db/repository.py:468-522 | Writes a result into the conversation of the run's user and into no other; the answer becomes the whole record that ResultIsRecorded describes. |
| Store.Database.FinalizeRun | apps/api/src/veris_api/db/repository.py:339-382 | Closes an unfinished run with its events, its control and its conversation in one transaction, as FinishIsRecorded and EveryEndingIs describe it column by column; reports false and changes nothing otherwise. |
| Store.Database.MarkRunCancelled | apps/api/src/veris_api/db/repository.py:385-427 | Cancels an unfinished run, storing its last snapshot if there is one; the ledger is untouched. |
| Store.Database.RequestRunCancellation | apps/api/src/veris_api/db/repository.py:430-465 | Cancels an accepted run and releases its unit, or records the request on a dispatched one. |
| Store.Database.CreateRun | apps/api/src/veris_api/db/repository.py:46-254 | A create returns the earlier run, or refuses and changes nothing, or makes every row it specifies. |
| Store.Database.EnterConversation | apps/api/src/veris_api/db/repository.py:100-181 | Opens the conversation with its history or checks it, adds the message at the next ordinal and bumps the revision. |
| Store.Database.AddHistory | apps/api/src/veris_api/db/repository.py:122-134 | Inserts the uploaded history by position; reports a clash exactly when a message key is taken twice. |
| Store.Database.FindExisting | apps/api/src/veris_api/db/repository.py:58-70 | Finds a run of the same owner and key if and only if there is one. |
| Store.Database.ReserveAllowance | apps/api/src/veris_api/db/quota.py:126-224 | Gives the verdict that follows from the account, its own limit, the day's grants and units, the counters and the unfinished runs, in numbers; a run that is admitted gets one reserved row and one more in each counter. |
| Store.Database.TakeSignals | apps/api/src/veris_api/db/quota.py:162-174 | Creates, locks and checks device and address counters; full exactly when one of them has reached its limit. |
| Store.Database.ReleaseReservedAllowance | apps/api/src/veris_api/db/quota.py:243-288 | Releases a reserved unit and takes one from each counter it names, or changes nothing. |
| Store.Database.ChargeAllowance | apps/api/src/veris_api/db/quota.py:227-234 | Charges a reserved unit and leaves any other ledger row alone. |
| Store.Database.AllowanceForUser | apps/api/src/veris_api/db/quota.py:90-123 | Shows the account's own nonzero limit or the installation's plus the day's grants, the units held, and what is left; none for an unknown user. |
| Store.Database.ClaimNextRun | apps/api/src/veris_api/db/dispatch.py:30-61 | Claims the ready, unlocked run that comes first by next attempt and creation and leaves the whole row of a fresh lease; claims none only when no unlocked run is ready. |
| Store.Database.EarliestClaimable | apps/api/src/veris_api/db/dispatch.py:44-53 | The query loop finds the ready, unlocked run that comes first by next attempt and creation, and none only when there is none. |
| Store.Database.RenewRunLease | apps/api/src/veris_api/db/dispatch.py:64-77 | Extends the lease exactly for its owner while the run is dispatched or working. |
| Store.Database.ReleaseRunForRetry | apps/api/src/veris_api/db/dispatch.py:88-133 | Requeues the owner's run with a delay, or fails it at the attempt limit and releases its unit alone. |
| Store.Database.EditMessage | apps/api/src/veris_api/db/repository.py:525-583 | Drops the sender's controls from the edited ordinal on, and the user's messages with them, reopening the conversation record; returns the removed ids. |
| Store.Database.UpsertConversation | apps/api/src/veris_api/db/conversations.py:72-145 | Stores the client's copy over its own conversation, or changes nothing; an active termination outweighs the upload. |
| Store.Database.AddUploaded | apps/api/src/veris_api/db/conversations.py:120-135 | Reinserts the kept messages at their positions; clashes exactly when a key is taken. |
| Uploads.UploadStoresScreen | apps/api/src/veris_api/db/conversations.py:115-135 | After an accepted upload the server stores the browser's response where the browser sends it and the server keeps it, and otherwise none. |
| Uploads.UploadStoresMessages | apps/web/src/transport/conversations.ts:43-64 | An accepted upload stores the title, the pin and each message sent that is not blank with its role, text and state, in the order of the screen. |
| Store.Database.DeleteConversation | apps/api/src/veris_api/db/conversations.py:148-164 | Deletes the owner's conversation with its controls and messages, and nobody else's. |
| Store.Database.PurgeExpiredRuns | apps/api/src/veris_api/db/retention.py:29-62 | Scrubs finished runs after a day and removes them, with the controls of their messages, when they expire. |
| Worker.FillSlots | apps/api/src/veris_api/runtime.py:135-148 | The claim loop ends for any clock and any locked rows: it never exceeds the concurrency, every run it adds is leased to this worker, each claim uses up one attempt, and if a slot stays free nothing was claimable. |
| Worker.ClaimUsesOne | apps/api/src/veris_api/db/dispatch.py:56-57 | Each claim uses up exactly one of the finitely many claims that the stored runs still have. |
| Agent.MarkWorking | apps/api/src/veris_api/agent.py:73-96 | Starts a run if and only if it is stored, has not ended and has no stop request, charging its reserved unit; otherwise it is cancelled and its unit left as it was. |
| Agent.PersistTurnResult | apps/api/src/veris_api/agent.py:99-146 | Builds the closing events of a turn and finishes the run with exactly those, its action and its answer. |
| Agent.PersistFailure | apps/api/src/veris_api/agent.py:149-167 | Fails the run with the public message and the internal code. |
| Agent.StepsAreMarkWorking | apps/api/src/veris_api/agent.py:80-88 | The three separate transactions of an execution, taken in a row, do what the step does when run alone. |
| Agent.StepsRefuse | apps/api/src/veris_api/agent.py:80-82 | A run that may not start is refused and then cancelled. |
| Agent.MarkWorkingCharges | apps/api/src/veris_api/agent.py:80-88 | Marking a run that may start as working charges its unit if it was reserved and leaves the run working. |

## Left out

- Liveness: a run at the attempt limit with an expired lease is never claimable, and a run that is asked to stop and then requeued stays accepted; only safety and the bound on status changes are stated.
- SQL, the ORM, sessions and dialect branches: a transaction is one atomic step, a query is a function or a loop over the table, and only the uniqueness constraints of runs, ledger rows, controls and messages are kept.
- A create that loses a race to a concurrent insert and then finds the winner's run: in the atomic model the first lookup finds it.
- The retry of `consume_rate_limit` after an insert that lost a race, for the same reason.
- DBOS and pydantic-ai: an execution runs its steps in order, may resume after a recorded checkpoint and may be started over when a worker restarts; the model's stream is a list of part events, each with the action and answer its arguments yield.
- `from_json(allow_partial=True)`: it supplies the action and the parsed answer of a chunk; `Pipeline` assumes of it only that it yields an answer once that has closed, and then all of it.
- Encoding: a text with a lone surrogate is stored and streamed like any other, although a driver may refuse to encode it.
- Locks the database takes by itself: `Locks` covers the rows locked by name, the control row a finish updates and the ledger row a charge or release updates. Bulk deletes and updates, unique indexes and foreign keys lock more. `EditDeadlocksIff` and `EditDeadlocksWithDelete` count the controls an edit and a delete remove; not modelled is the deadlock of two first creates of one user, each of which shares the account row through the foreign key of its new conversation before it locks that row for itself.
- Prompt text, history contents, display names, provider attempts and usage records: nothing proved here depends on them.
- The `active` column of controls (always true), the `units` column of the ledger (always one), and stored fields that are only written: they have no place in the records.
- Setting a run's status to anything but working by `set_run_status`: no caller does.
- Cancelling the local task and the workflow in `cancel_run`, the worker's heartbeat and the retention clock of `run_worker_loop`.
- The order in which `deletion_plan` prints its names; parsing of times and weeks, which are a number and an arbitrary function of it.
- Changing an account's roles or limits during a history: roles fix the session lengths, and accounts are only activated or deactivated.
- Authentication, hashing, cookies, HTTP routing, email, migrations, deployment and the user interface beyond the reducer.
- Developer log buffer, dashboard metrics, display-name rules and conversation-list sorting: easy members.
- Argument texts with nested objects or lists before the answer, which the output schema does not have; the limits the write schema puts on an upload; reloading the page, after which the browser shows the server's copy.
