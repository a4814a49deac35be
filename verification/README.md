# Content processing accelerator: a Dafny model

This project models the parts of the content processing accelerator that carry
its guarantees, and proves those guarantees for all inputs and all runs. It is
checked with `dafny verify dfyconfig.toml` (Dafny 4.11).

**The claim queue** (`QueueProtocol`, `QueueSafety`, `QueueReceipts`,
`QueueRuns`, `QueueStale`, `QueueStop`, `QueueExclusion`, `ClaimAttempt`,
`ClaimEffects`, `ClaimQueueService`). The storage queue with
leases and pop receipts, the dead-letter queue, the workers with their
in-flight dictionaries, and a clock, as a step system: one event is one stretch
of code between two awaits, one effect at the storage service, or a tick. A
storage call may fail before it takes effect, or take effect and have its
answer lost; a cancelled task leaves its call running, and a cancellation may
land at any await, the one of the finally block included. Over all runs: what
becomes of every message; no worker touches a message another has received
since; receipts agree unless a renewal was cut short; and the exact conditions
under which no message is silently lost and under which two workers never run
the same claim. `ClaimEffects` says in plain numbers what each operation does to
the queues, for every fault. The class `Service` holds the real dictionaries, and
its methods are proved to be runs of that step system.

**The schema compiler** (`SchemaShape`, `SchemaMeaning`, `SchemaFragment`,
`ModelTable`, `ModelNames`, `Translation`, `TranslationMeaning`,
`ModelBuilder`, `AliasCycles`, `SupportedSchemas`, `KeywordOrder`,
`SchemaDeviations`, `DeviationInputs`, `NameCollisions`, `LegacyDefinitions`). `SchemaMeaning` is an interpreter of JSON Schema draft
2020-12 that knows nothing of the builder; `ModelBuilder` is the recursive
builder with its memo table, its in-progress set, its forward references and
its fresh names. The built models accept a value if and only if the interpreter
does; the recursion ends if and only if no cycle of non-object definitions is
met.

**The upload validator** (`SchemaValidator`): its error list is exact, and a
document that passes never makes the builder meet a reference it refuses.

**Context trimming** (`ContextMessages`, `ContextTrim`, `ContextTrimming`,
`ContextOutcome`, `ContextChat`).
Messages are None, dicts, or objects; objects live in a map that
`_set_message_text` updates in place, so two list entries can share one.

**Process supervision** (`HandlerSupervision`): a loop over a list that it
changes while iterating.

**The document pipeline** (`PipelineSteps`, `PipelineProtocol`,
`PipelineHandler`): tokens, handlers, and failures between any two operations.

**The claim workflow** (`ClaimWorkflow`): from the event stream to the status
writes and to what the claim queue does about it.

**Codecs and normalisers** (`Base64`, `Utf8`, `ClaimPayload`, `OrderedDicts`,
`FlattenDict`, `FlattenPaths`, `FlattenLosses`, `FilenameSanitizing`).

## What the proofs found

- `stop_worker` cancels the worker task, but the worker loop's inner handler
  (queue_service.py:879) swallows that cancellation when a job is in flight and
  goes on polling. The entries `stop_worker` then drops can be those of the
  next job, which is never renewed. `QueueExclusion.ExclusionExactly` gives the
  exact condition for two workers never to overlap.
- The finally block of message processing pops the in-flight entries only after
  an await (queue_service.py:1117-1123). A cancellation there leaves them, and
  the worker loop goes on polling. A malformed message the worker then receives
  is handled under those entries: its letter is sent, and the earlier message is
  deleted. `QueueStale.LossExactly` gives the exact condition for no message to
  be lost, `InterruptLoses` and `CrashLoses` two runs that lose one.
- `stop_process` awaits a deletion of blobs before it cancels: the job it
  cancels is the one it named if and only if the worker has received nothing
  meanwhile (`QueueStop.StopsNamedJobExactly`).
- A delete after success that raises something other than an Azure error takes
  a completed message through failure handling (queue_service.py:1091-1116); it
  is an event of the step system.
- The renewal sleep is 60 % of the timeout counted from when the worker got the
  message or the previous answer, so the other 40 % has to cover both the
  answer delay and the call delay.
- `max_receive_attempts = 0` means 3, because of `or 3`
  (queue_service.py:1221).
- `oneOf` is built as a union, and a required name without a property of its
  own is ignored. `SchemaDeviations` says exactly when that shows, and
  `DeviationInputs` has a document and a value for each. Where an optional
  property is absent the model accepts; an explicit null is judged by the
  property's own type.
- A cycle of non-object `$defs` recurses for ever (`AliasCycles`); a `$defs`
  name equal to the root name or to a synthesized inline name makes references
  resolve to the wrong model (`NameCollisions` has an input), which is why the
  meaning theorem asks for `Translation.CleanNames`.
- Two or more leading system messages can exceed the trimming budget, leading
  system messages come twice when they are still inside the window, and a
  message object listed twice can be kept twice
  (`ContextTrimming.ReadingDiffersExactly` says when its second reading differs).
- Pipeline steps named twice make a document go round for ever, because the
  next step is looked up by name.
- An executor failure takes the forced dead-letter path only if the
  repository calls that report it succeed, the one in the `finally` block
  included.
- `sanitize_filename` replaces two backslashes in a row, while its description
  promises to drop path components at any backslash: `a\b.txt` becomes
  `a_b.txt`. `FilenameSanitizing.PathDroppedExactly` says for which filenames
  the promise is kept. The limit `max_chars` is met by every name exactly from
  17 on.
- A renewal that has taken effect but whose answer is still on the way when the
  workflow returns leaves the worker with an outdated receipt: the completed
  message is not deleted and is processed again
  (`QueueExclusion.CutShortStaysQueued`).
- `stop_process` deletes output blobs of a message that has no dead letter
  (queue_service.py:500-503); failure handling never does.

## Model

| member | source | states |
|---|---|---|
| `QueueSafety.FateOfMessage` | src/ContentProcessorWorkflow/src/services/queue_service.py:1280-1367 | In every reachable state, whatever calls fail and wherever a cancellation lands, a message ever enqueued is still in the main queue with its content, or its workflow returned without error, or its original content is in the dead-letter queue, or `stop_process` deleted it, or the failure handling of a malformed message, whose own content is in the dead-letter queue, deleted it |
| `QueueSafety.RunKeeps` | src/ContentProcessorWorkflow/src/services/queue_service.py:829-1123 | Every run of events from a fresh service keeps the global invariant: queue, history, letters, in-flight entries, leases and per-worker state agree |
| `QueueSafety.NextKeeps` | src/ContentProcessorWorkflow/src/services/queue_service.py:829-1123 | Each single event (receive, begin, renewal wake, call, answer, workflow end, failure handling, the two halves of the finally block, cancel at any await, stop, orphaned call) keeps that invariant |
| `QueueSafety.HistoryGrows` | src/ContentProcessorWorkflow/src/services/queue_service.py:1143-1168 | No event rewrites the past: enqueued contents, letters, completions and removal reasons only grow |
| `QueueSafety.OnlyOwnMessage` | src/ContentProcessorWorkflow/src/services/queue_service.py:1250-1262 | Every delete or update a busy worker has under way or may issue next never takes effect on a message another worker has received since, and names the message it holds unless that is malformed; calls left running by a cancelled task are in `QueueReceipts.OrphansStayApart` |
| `QueueSafety.TargetExactly` | src/ContentProcessorWorkflow/src/services/queue_service.py:1344-1356 | The next call of a busy worker names the message it holds if and only if that parses or the worker has no in-flight entry |
| `QueueStale.ClearExactly` | src/ContentProcessorWorkflow/src/services/queue_service.py:1117-1123 | In every run a worker back at polling has no in-flight process, message or batch entry and no renewal, if and only if no cancellation may land at the await of the finally block |
| `QueueStale.LossExactly` | src/ContentProcessorWorkflow/src/services/queue_service.py:1117-1123 | In every run each message is queued with its content, completed, dead-lettered with its content or deleted by `stop_process`, if and only if cancellations at that await, or malformed messages begun while there are entries, are excluded |
| `QueueStale.OwnCallsExactly` | src/ContentProcessorWorkflow/src/services/queue_service.py:1344-1356 | In every run each call of a worker names the message it was handed, under the same condition and no weaker one |
| `QueueStale.CarefulIsSound` | src/ContentProcessorWorkflow/src/services/queue_service.py:934-1123 | Every single run that respects one of the two exclusions ends with every message accounted for and every call the worker’s own |
| `QueueStale.LeftoverLoses` | src/ContentProcessorWorkflow/src/services/queue_service.py:1280-1367 | From any state with a polling worker whose leftover entry still matches the queue: a malformed message received next has its letter sent, then the message of the leftover entry is deleted, and the malformed one stays queued |
| `QueueStale.InterruptLoses` | src/ContentProcessorWorkflow/src/services/queue_service.py:1117-1123 | The whole run from a fresh service: a job cancelled twice, the second time in the finally block, then a malformed message; the first message is neither queued nor completed nor dead-lettered nor stopped |
| `QueueStale.CrashLoses` | src/ContentProcessorWorkflow/src/services/queue_service.py:1018-1019 | The same after one cancellation, when the workflow could not be resolved and the retry has stored a current receipt |
| `QueueSafety.RetryDiscipline` | src/ContentProcessorWorkflow/src/services/queue_service.py:1220-1340 | Every unforced dead letter records at least max(1, max_receive_attempts) attempts, and failure handling deletes output blobs only of messages already dead-lettered; `stop_process` deletes them without a letter, and its deletions are recorded as such |
| `QueueSafety.LastAttemptCall` | src/ContentProcessorWorkflow/src/services/queue_service.py:1280-1335 | A storage call made while handling a failure of the last attempt never uses the short retry delay: it leaves the queue alone or hides the one message it names for at least 60 seconds, and that is the message handled unless it is malformed |
| `QueueSafety.LastAttemptEnds` | src/ContentProcessorWorkflow/src/services/queue_service.py:1313-1367 | When failure handling of the last attempt goes on, after a call or after deleting output blobs, the queue is unchanged or loses exactly the message its entries name, and then the letter of the message handled is in the dead-letter queue; the two are the same message if and only if it parses or there are no entries |
| `QueueReceipts.RunAgrees` | src/ContentProcessorWorkflow/src/services/queue_service.py:1419-1432 | Over every run, cancellations in the finally block included, the receipt a worker tracks (or is about to store) is the current one for as long as its lease is current, unless that lease was tainted by a renewal cut short, a lost answer or dropped entries, or a malformed message is handled under entries of an earlier job |
| `QueueReceipts.TrackedIsCurrent` | src/ContentProcessorWorkflow/src/services/queue_service.py:1046-1054 | Under a current and untainted lease, with no call of its own under way, the id and receipt a worker uses next are those the queue holds for its message, if and only if that message parses or the worker has no entry |
| `QueueReceipts.SuccessRemoves` | src/ContentProcessorWorkflow/src/services/queue_service.py:1125-1168 | Deleting after a successful workflow removes the message when the lease is still current and untainted |
| `QueueReceipts.OrphansStayApart` | src/ContentProcessorWorkflow/src/services/queue_service.py:1046-1054 | A call left running by a cancelled task that can still take effect on a message some worker holds was issued under that worker’s own lease, which is then tainted; so it never takes effect on the message of an untainted holder |
| `QueueExclusion.MutualExclusion` | src/ContentProcessorWorkflow/src/services/queue_service.py:1411-1439 | With a lease of at least a minute, every renewal succeeding and the delays inside the slack between sleep and timeout, no timely run has two workers running the workflow of one message |
| `QueueExclusion.ExclusionExactly` | src/ContentProcessorWorkflow/src/services/queue_service.py:539-600 | The exact condition: all timely runs are exclusive if and only if sleep + answer delay + call delay is less than the timeout and `stop_worker` never drops the entries of a busy worker; cancellations may land anywhere, also in the finally block |
| `QueueExclusion.SlackIsNeeded` | src/ContentProcessorWorkflow/src/services/queue_service.py:1411-1418 | When the delays use up the slack, a concrete timely run has two workers on the same message |
| `QueueExclusion.StopWorkerOverlaps` | src/ContentProcessorWorkflow/src/services/queue_service.py:573-598 | The run spelled out: the cancellation ends a job and is swallowed by the worker loop, the worker starts its next job, `stop_worker` drops that job’s entries, it is never renewed, and a second worker starts the same message; timely, and not exclusive |
| `QueueExclusion.CutShortStaysQueued` | src/ContentProcessorWorkflow/src/services/queue_service.py:1046-1054 | Why the receipts theorem needs its exception: in a run without any delay or failing call, the workflow returns between a renewal’s effect and its answer, the delete then uses the outdated receipt, and the completed message stays queued |
| `ClaimAttempt.AttemptIsRun` | src/ContentProcessorWorkflow/src/services/queue_service.py:934-1123 | One whole attempt, from parsing to the end of the finally block, with any entries left over before it, any renewals, outcome and faults, is a run of the protocol |
| `ClaimAttempt.AttemptStaysReachable` | src/ContentProcessorWorkflow/src/services/queue_service.py:1117-1123 | So an attempt keeps every property of reachable states and leaves its worker with nothing in flight |
| `ClaimAttempt.ReliableAttempt` | src/ContentProcessorWorkflow/src/services/queue_service.py:1056-1078 | What an attempt does when no call fails: success deletes exactly this message; a forced or last failure appends exactly one letter with the original content and attempt count, cleans blobs of a parsed claim, and deletes; any other failure leaves it queued for the retry delay |
| `ClaimAttempt.FailureIsRun` | src/ContentProcessorWorkflow/src/services/queue_service.py:1220-1367 | Failure handling, from its decision to the finally block, is a run of the protocol for every combination of faults |
| `ClaimAttempt.FailureEnds` | src/ContentProcessorWorkflow/src/services/queue_service.py:1280-1367 | What fault-free failure handling leaves in the queue, the dead-letter queue and the blob store, retry branch and dead-letter branch |
| `ClaimAttempt.RenewalsHoldTheLease` | src/ContentProcessorWorkflow/src/services/queue_service.py:1411-1439 | Through any number of successful renewal rounds the tracked receipt stays current and the message is hidden for a full timeout after each round; no other message changes |
| `ClaimAttempt.SleepsAreRun` | src/ContentProcessorWorkflow/src/services/queue_service.py:1411-1439 | The renewal loop, with failing, lost and not-found answers, is a run of the protocol |
| `ClaimQueueService.Service.ProcessQueueMessage` | src/ContentProcessorWorkflow/src/services/queue_service.py:934-1123 | The attempt on the real dictionaries: entries set, renewals, outcome branches, finally block; the new state is the specified attempt of the old one |
| `ClaimQueueService.Service.HandleFailedNoRetry` | src/ContentProcessorWorkflow/src/services/queue_service.py:1170-1367 | The queue, the dead letters, the deleted blobs and the tracked receipt afterwards, for every combination of faults and in terms of the configured numbers: unforced and below the attempt limit (n for n >= 1, 3 for 0, 1 below), the message is hidden for max(0, retry_delay_seconds); otherwise the letter is sent and, once it was, the output blobs and the message go; when the send fails it is hidden for at least 60 s |
| `ClaimQueueService.Service.HandleSuccessfulProcessing` | src/ContentProcessorWorkflow/src/services/queue_service.py:1125-1168 | Deletes under the tracked receipt if there is one, else under the received one |
| `ClaimQueueService.Service.RenewVisibilityLoop` | src/ContentProcessorWorkflow/src/services/queue_service.py:1390-1439 | The renewal loop with its exits (service stopped, message gone) equals the specified rounds, each of which is `RenewalRound` |
| `ClaimQueueService.Service.RenewalRound` | src/ContentProcessorWorkflow/src/services/queue_service.py:1390-1439 | One round in plain numbers: a sleep of 36 seconds for each minute of the timeout, then the tracked message, if it is there under the tracked receipt, is hidden for 60 seconds for each minute under its next receipt, which is tracked if the answer arrives; the loop ends if the message is gone |
| `ClaimEffects.FailureDoes` | src/ContentProcessorWorkflow/src/services/queue_service.py:1220-1367 | The same effects for every state of the step system and every fault: threshold, delay, the 60 seconds after a failed send, the letter, the deletion, the receipt kept |
| `ClaimEffects.LimitIs` | src/ContentProcessorWorkflow/src/services/queue_service.py:1221-1228 | The attempt limit by `max_receive_attempts` alone: n for n >= 1, 3 for 0, 1 below |
| `ClaimEffects.TimesAre` | src/ContentProcessorWorkflow/src/services/queue_service.py:1410-1411 | Lease, renewal, sleep and retry delay by the configured numbers alone |
| `ClaimEffects.RenewalDoes` | src/ContentProcessorWorkflow/src/services/queue_service.py:1390-1439 | One renewal round for every fault: clock, queue, tracked receipt, and whether the loop goes on |
| `ClaimEffects.ReceiveDoes` | src/ContentProcessorWorkflow/src/services/queue_service.py:866-875 | Receiving counts the message once more and hides it for the configured minutes under a new receipt, leaving the worker’s entries alone |
| `ClaimEffects.BeginDoes` | src/ContentProcessorWorkflow/src/services/queue_service.py:934-1016 | A job whose message parses tracks it under its own receipt and its claim, and starts the renewal unless the service has stopped |
| `ClaimEffects.AttemptDoes` | src/ContentProcessorWorkflow/src/services/queue_service.py:934-1123 | A whole fault-free attempt in plain numbers, also with a workflow that cannot be resolved: deleted after success, a letter with the recorded attempts when malformed, forced or at the limit, else hidden for max(0, retry_delay_seconds) |
| `ClaimQueueService.Service.DeleteInflightQueueMessage` | src/ContentProcessorWorkflow/src/services/queue_service.py:630-671 | The queue loses the worker’s tracked message if it is there under the tracked receipt and the request gets through, and is unchanged otherwise |
| `ClaimQueueService.Service.StopProcess` | src/ContentProcessorWorkflow/src/services/queue_service.py:478-537 | Finds a worker whose in-flight process is the given one; its tracked message leaves the queue if it is there under the tracked receipt and the request gets through; the output blobs of its tracked claim are deleted; the job the worker is on is cancelled, wherever that lands, and its finally block waited for; nothing happens if there is no such worker; the result is a run of the protocol |
| `QueueStop.StopsNamedJobExactly` | src/ContentProcessorWorkflow/src/services/queue_service.py:485-519 | With anything happening between the deletions and the cancellation: the job cancelled is the one the worker was on if and only if the worker has received nothing in between, and that job has the given process id if it parses and is past its first stretch |
| `QueueStop.StopDeletesExactly` | src/ContentProcessorWorkflow/src/services/queue_service.py:478-503 | The queue loses exactly the tracked message, recorded as stopped, if it is there under the tracked receipt and the request gets through; otherwise the queue is unchanged |
| `QueueStop.StopRemovesJob` | src/ContentProcessorWorkflow/src/services/queue_service.py:485-491 | In every reachable state: under a current and untainted lease, with no answer of its own calls waiting, `stop_process` removes the message of a parsed job |
| `ClaimQueueService.Service.CancelJob` | src/ContentProcessorWorkflow/src/services/queue_service.py:507-513 | Cancelling a job wherever it is: before its first step and in its finally block the pops are skipped, else the finally block begins; calls already issued go on |
| `ClaimQueueService.Service.ForgetWorker` | src/ContentProcessorWorkflow/src/services/queue_service.py:586-598 | What `stop_worker` drops, whatever the worker is doing: all four entries of this worker and of no other |
| `ClaimQueueService.Service.ClearInflight` | src/ContentProcessorWorkflow/src/services/queue_service.py:1117-1123 | The finally block: renewal cancelled (a call under way stays with the service), then all three entries of this worker and of no other removed; interrupted at its await, no entry is removed |
| `ModelBuilder.BuildModelFromSchema` | src/ContentProcessor/src/libs/utils/remote_schema_loader.py:72-93 | Judged at the document’s own definitions (`DefinitionsExactly`), without which it fails. On success the table holds the root model, is closed under references and translates the document, and the completion order lists every model exactly once, the root last; a non-local-reference error names a non-local `$ref` of the document; a document of the buildable schemas (all supported ones are) never fails; for supported documents with clean names the root model accepts a value if and only if the schema interpreter does |
| `ModelBuilder.DefinitionsExactly` | src/ContentProcessor/src/libs/utils/remote_schema_loader.py:78-80 | A non-empty object under `$defs` gives the definitions; if `$defs` is absent or counts as nothing, a non-empty object under `definitions` does; if both do, there are none; anything else is refused |
| `SupportedSchemas.WrittenExactly` | src/ContentProcessor/src/libs/utils/remote_schema_loader.py:202-327 | The schemas the meaning theorem is for, by their keywords alone and without the builder’s reading of a node: the two descriptions agree on every schema |
| `KeywordOrder.FirstKeywordWins` | src/ContentProcessor/src/libs/utils/remote_schema_loader.py:221-241 | Whatever other keywords a node has, its type is that of its reference alone, else of its `anyOf`, else of its `oneOf` read as `anyOf`, else of its allowed values |
| `KeywordOrder.ThenType` | src/ContentProcessor/src/libs/utils/remote_schema_loader.py:243-261 | With none of these the type tokens decide, each by the whole node, and anything is accepted when there are none |
| `KeywordOrder.RequiredExactly` | src/ContentProcessor/src/libs/utils/remote_schema_loader.py:151 | Which names count as required, for a list, a text, an object and a value that counts as nothing |
| `KeywordOrder.PropertiesExactly` | src/ContentProcessor/src/libs/utils/remote_schema_loader.py:150 | What counts as properties: an object’s members, none for a value that counts as nothing, an error for any other |
| `KeywordOrder.InlineNameIs` | src/ContentProcessor/src/libs/utils/remote_schema_loader.py:340-344 | An inline object is named after its parent and the capitalised parts of its property, or "Inline" when there are none |
| `LegacyDefinitions.BuildLegacy` | src/ContentProcessor/src/libs/utils/remote_schema_loader.py:72-93 | Concrete input through the builder’s own entry: a document with its definitions under `definitions` gives a model that accepts a valid value and refuses an invalid one |
| `ModelBuilder.Builder.BuildObject` | src/ContentProcessor/src/libs/utils/remote_schema_loader.py:133-186 | The finished model’s name was neither finished nor in progress before (and is the requested one for the root and for definitions), it is the last in completion order and its origin is this node; earlier models are untouched and the in-progress set is as on entry, also on errors; an error means the document is not buildable |
| `ModelBuilder.Builder.TakeName` | src/ContentProcessor/src/libs/utils/remote_schema_loader.py:141-148 | The name reserved was free, is the requested one unless the node is inline, and is a name this document can give |
| `ModelBuilder.Builder.BuildFields` | src/ContentProcessor/src/libs/utils/remote_schema_loader.py:151-172 | One field per property, in order, each translating its property; required exactly when listed |
| `ModelBuilder.Builder.FieldFor` | src/ContentProcessor/src/libs/utils/remote_schema_loader.py:202-261 | The field type translates the schema; an error means the document is not buildable |
| `ModelBuilder.Builder.UnionTypes` | src/ContentProcessor/src/libs/utils/remote_schema_loader.py:225-235 | `anyOf`/`oneOf` members are translated one by one, in order |
| `ModelBuilder.Builder.TokenTypes` | src/ContentProcessor/src/libs/utils/remote_schema_loader.py:243-252 | A list of type tokens becomes their union, a single one its own type |
| `ModelBuilder.Builder.TypeForSimple` | src/ContentProcessor/src/libs/utils/remote_schema_loader.py:263-284 | Primitive, array and inline-object tokens; an error means the document is not buildable |
| `ModelBuilder.Builder.ResolveRef` | src/ContentProcessor/src/libs/utils/remote_schema_loader.py:286-327 | A finished model is reused as it is, one under construction gives a forward reference, neither builds anything; a definition with type object or with properties is built under its own name; an alias is translated in place |
| `ModelBuilder.Builder.DedupeName` | src/ContentProcessor/src/libs/utils/remote_schema_loader.py:331-338 | The candidate if it is free, otherwise its first free number from 2 up; the search ends by pigeonhole |
| `ModelBuilder.TranslatedIsClosed` | src/ContentProcessor/src/libs/utils/remote_schema_loader.py:188-200 | Every class and forward reference in the finished table names a model of the table |
| `ModelBuilder.RootAgrees` | src/ContentProcessor/src/libs/utils/remote_schema_loader.py:72-93 | The root model of a finished table accepts exactly the valid values |
| `TranslationMeaning.TypeAgrees` | src/ContentProcessor/src/libs/utils/remote_schema_loader.py:202-327 | For every supported schema, recursive definitions included, and every JSON value: the built type accepts the value if and only if the independent interpreter (JSON Schema Core 8.2.3.1, 10.2.1.2, 10.3; Validation 6.1.1, 6.1.2, 6.5.3) finds it valid |
| `TranslationMeaning.ModelAgrees` | src/ContentProcessor/src/libs/utils/remote_schema_loader.py:151-180 | A model accepts exactly the objects that satisfy `properties` and `required` of its node; absent optional members are fine |
| `TranslationMeaning.ArrayAgrees` | src/ContentProcessor/src/libs/utils/remote_schema_loader.py:273-278 | A list type accepts exactly the arrays all of whose items are valid |
| `TranslationMeaning.RefAgrees` | src/ContentProcessor/src/libs/utils/remote_schema_loader.py:286-327 | A reference means its definition, through aliases and forward references |
| `TranslationMeaning.UnionAgrees` | src/ContentProcessor/src/libs/utils/remote_schema_loader.py:225-235 | An `anyOf` union accepts exactly what some alternative allows |
| `Translation.TranslationMentions` | src/ContentProcessor/src/libs/utils/remote_schema_loader.py:299-319 | A translation mentions only models that have been started |
| `Translation.TranslatesGrows` | src/ContentProcessor/src/libs/utils/remote_schema_loader.py:299-319 | A translation stays one as more models are built |
| `AliasCycles.GroundedUnlessCyclic` | src/ContentProcessor/src/libs/utils/remote_schema_loader.py:321-327 | Termination, stated of the predicate that bounds the alias steps, early errors aside: some bound exists if and only if no cycle of non-object definitions is met, and then one more step than there are definitions is enough |
| `AliasCycles.CycleNeverHalts` | src/ContentProcessor/src/libs/utils/remote_schema_loader.py:321-327 | Expanding a reference into a cycle of non-object definitions never ends |
| `AliasCycles.StepsSettle` | src/ContentProcessor/src/libs/utils/remote_schema_loader.py:321-327 | The set of aliases still unfinished after n steps settles within as many further steps as it has members |
| `ModelNames.NumbersTaken` | src/ContentProcessor/src/libs/utils/remote_schema_loader.py:331-338 | Pigeonhole: only as many numbered names are taken as there are names |
| `ModelNames.NumberedInjective` | src/ContentProcessor/src/libs/utils/remote_schema_loader.py:336-338 | Different numbers give different names |
| `ModelNames.FreshNameIsInline` | src/ContentProcessor/src/libs/utils/remote_schema_loader.py:341-344 | Whatever number it got, the name of an inline object is one of the names inline objects can get |
| `SchemaDeviations.OneOfAgreesExactly` | src/ContentProcessor/src/libs/utils/remote_schema_loader.py:225-235 | `oneOf` is built as a union: the built type is right about a value if and only if no two alternatives allow it |
| `SchemaDeviations.RequiredExactly` | src/ContentProcessor/src/libs/utils/remote_schema_loader.py:151-172 | For a value the built model accepts, `required` holds if and only if the value has the required names that no property declares |
| `SchemaDeviations.ModelAgreesExactly` | src/ContentProcessor/src/libs/utils/remote_schema_loader.py:151-172 | The model of an object node with supported properties is right about a value if and only if it does not accept it without one of the required names no property declares |
| `DeviationInputs.BuildUndeclared` | src/ContentProcessor/src/libs/utils/remote_schema_loader.py:151-161 | Concrete input: for an object schema that requires "y" and declares no property the builder succeeds and its model accepts the empty object, which the schema does not allow |
| `DeviationInputs.BuildOverlapping` | src/ContentProcessor/src/libs/utils/remote_schema_loader.py:225-235 | Concrete input: for a property with `oneOf` number and integer the builder succeeds and its model accepts 1, for which both alternatives hold |
| `NameCollisions.BuildDocument` | src/ContentProcessor/src/libs/utils/remote_schema_loader.py:133-186 | Concrete input through the builder’s own entry: a document loaded under the name of its own definition gives a model that accepts a value the document does not allow |
| `NameCollisions.CollisionChangesMeaning` | src/ContentProcessor/src/libs/utils/remote_schema_loader.py:303-309 | Whatever table translates that document, its only reference means the root itself, so the table accepts the value although the interpreter does not |
| `NameCollisions.CollisionIsSupported` | src/ContentProcessor/src/libs/utils/remote_schema_loader.py:286-327 | Apart from its name the document is one for which the meaning theorem holds |
| `SchemaValidator.ValidateJsonSchema` | src/ContentProcessorAPI/app/routers/logics/schema_validator.py:42-118 | Returns the document exactly when it is acceptable; otherwise the error list holds exactly the violations of the document, each with the path text of its place; upload, size (1048576 bytes), encoding and root errors first |
| `SchemaValidator.CheckRoot` | src/ContentProcessorAPI/app/routers/logics/schema_validator.py:78-98 | Root type, properties and meta-schema errors, each exactly when it applies |
| `SchemaValidator.CheckKeywords` | src/ContentProcessorAPI/app/routers/logics/schema_validator.py:100-106 | One error per disallowed extension keyword at any depth, and no other |
| `SchemaValidator.CheckRefs` | src/ContentProcessorAPI/app/routers/logics/schema_validator.py:108-114 | One error per non-local string `$ref` at any depth, and no other |
| `SchemaValidator.RefsAreListed` | src/ContentProcessorAPI/app/routers/logics/schema_validator.py:163-175 | The reference walker lists a (path, ref) pair if and only if a string `$ref` sits at a place with that path text |
| `SchemaValidator.ExtensionsAreListed` | src/ContentProcessorAPI/app/routers/logics/schema_validator.py:148-160 | The keyword walker lists a (path, key) pair if and only if some dict at that path has that `x-` key |
| `SchemaValidator.ListedAreWalked` | src/ContentProcessorAPI/app/routers/logics/schema_validator.py:163-175 | The references listed are exactly those the builder can come across |
| `SchemaValidator.AcceptableExactly` | src/ContentProcessorAPI/app/routers/logics/schema_validator.py:78-118 | A document is acceptable if and only if it has no violation |
| `SchemaValidator.AcceptedRefsAreLocal` | src/ContentProcessorAPI/app/routers/logics/schema_validator.py:108-118 | Every reference of an accepted document is local |
| `SchemaValidator.LoadUploaded` | src/ContentProcessor/src/libs/utils/remote_schema_loader.py:286-297 | Building from an accepted document never ends in the non-local-reference error |
| `ContextChat.Chat.TrimMessages` | src/ContentProcessor/src/libs/agent_framework/azure_openai_response_retry.py:292-360 | The returned list and the message objects afterwards are those `ContextOutcome.Trims` describes over the list and the configuration alone, for messages that are None, dicts or shared objects |
| `ContextChat.Chat.Clean` | src/ContentProcessor/src/libs/agent_framework/azure_openai_response_retry.py:312-331 | The deduplicating scan with its in-place truncations |
| `ContextChat.Chat.Fit` | src/ContentProcessor/src/libs/agent_framework/azure_openai_response_retry.py:333-360 | The drop loop: oldest non-system message first, the last system message truncated when nothing else is left |
| `ContextChat.Chat.KeepSystem` | src/ContentProcessor/src/libs/agent_framework/azure_openai_response_retry.py:302-307 | The leading run of system messages |
| `ContextChat.Chat.SetMessageText` | src/ContentProcessor/src/libs/agent_framework/azure_openai_response_retry.py:208-233 | A dict is copied, an object written in place, in the attribute order of the code |
| `ContextOutcome.TrimmedExactly` | src/ContentProcessor/src/libs/agent_framework/azure_openai_response_retry.py:292-360 | End to end: the leading run of messages of role system; the last min(keep_last, n) messages scanned, or all; of those exactly the ones kept whose first and last 200 characters differ from every earlier text read, dicts over the limit as cut copies and objects cut in place; then the longest suffix of them that fits with the leading run, or that run alone with its last text cut; disabled, nothing changes |
| `ContextOutcome.TrimsExactly` | src/ContentProcessor/src/libs/agent_framework/azure_openai_response_retry.py:292-360 | A list and objects meet that description if and only if they are what trimming returns, so it leaves no answer open |
| `ContextMessages.ReadAfterSet` | src/ContentProcessor/src/libs/agent_framework/azure_openai_response_retry.py:180-233 | Reading a message after its text was set gives that text exactly when the message is writable (every dict is), else the old text; no other message changes |
| `ContextMessages.TruncationKeepsEnds` | src/ContentProcessor/src/libs/agent_framework/azure_openai_response_retry.py:148-177 | Truncated text never exceeds the limit, is unchanged within it, starts with the kept head and, when a tail is kept, ends with it without overlap, with the omission marker between as far as there is room |
| `ContextTrimming.ScanIsSelection` | src/ContentProcessor/src/libs/agent_framework/azure_openai_response_retry.py:312-331 | The cleaned window is the order-preserving selection of the first message of every fingerprint, each cut to the limit |
| `ContextTrimming.FirstOf` | src/ContentProcessor/src/libs/agent_framework/azure_openai_response_retry.py:316-320 | Every message of the window has exactly one representative, at or before it |
| `ContextTrimming.ShortTextsAreKept` | src/ContentProcessor/src/libs/agent_framework/azure_openai_response_retry.py:316-320 | A text under 200 characters is dropped only if the identical text was kept earlier |
| `ContextTrimming.ReadingsAreOriginal` | src/ContentProcessor/src/libs/agent_framework/azure_openai_response_retry.py:315-331 | Unless one object occurs twice in the window, the texts read are those held before trimming |
| `ContextTrimming.ReadingDiffersExactly` | src/ContentProcessor/src/libs/agent_framework/azure_openai_response_retry.py:315-331 | In general the text read differs from the one held before trimming if and only if the message is a writable object over the limit of which an earlier listing was kept, and then it is the truncated text |
| `ContextTrimming.SharedObjectKeptTwice` | src/ContentProcessor/src/libs/agent_framework/azure_openai_response_retry.py:322-331 | Concrete input: an object listed twice is cut between the two readings and kept twice |
| `ContextTrimming.KeptWithinLimit` | src/ContentProcessor/src/libs/agent_framework/azure_openai_response_retry.py:322-331 | Every kept message is within the message limit unless its text cannot be set |
| `ContextTrimming.LongestSuffix` | src/ContentProcessor/src/libs/agent_framework/azure_openai_response_retry.py:341-360 | When the leading system messages fit, they are followed by the longest suffix of the cleaned window that fits with them |
| `ContextTrimming.OnlySystemLeft` | src/ContentProcessor/src/libs/agent_framework/azure_openai_response_retry.py:346-357 | When they do not fit, they alone are left, the last one truncated |
| `ContextTrimming.BudgetExactly` | src/ContentProcessor/src/libs/agent_framework/azure_openai_response_retry.py:338-360 | The total is within the budget if and only if the leading system messages fit, or all but the last fit together with the truncated text of a writable last one, that text counted once more for every earlier listing of the same object |
| `ContextTrimming.TrimmedWithinBudget` | src/ContentProcessor/src/libs/agent_framework/azure_openai_response_retry.py:292-360 | With at most one leading system message, writable, the total never exceeds the budget |
| `ContextTrimming.TwoSystemMessagesExceed` | src/ContentProcessor/src/libs/agent_framework/azure_openai_response_retry.py:346-357 | Concrete input: two leading system messages exceed the budget |
| `ContextTrimming.SystemMessagesComeTwice` | src/ContentProcessor/src/libs/agent_framework/azure_openai_response_retry.py:298-310 | With nothing to trim the result is the input after a second copy of its leading system messages |
| `HandlerSupervision.BoundedWait` | src/ContentProcessor/src/libs/process_host/handler_process_host.py:77-101 | A handler dead at list position p is restarted within p + 1 passes whatever the other handlers do, and all jobs are still there |
| `HandlerSupervision.RestartedOrCloser` | src/ContentProcessor/src/libs/process_host/handler_process_host.py:77-101 | In one pass a dead handler is restarted, or skipped and strictly nearer the front |
| `HandlerSupervision.SlowestWait` | src/ContentProcessor/src/libs/process_host/handler_process_host.py:77-101 | The bound is reached: some run of deaths makes it wait p whole passes |
| `HandlerSupervision.VisitsKeep` | src/ContentProcessor/src/libs/process_host/handler_process_host.py:84-101 | Every pass keeps the multiset of jobs and never lets two entries share a process |
| `HandlerSupervision.LiveIsKept` | src/ContentProcessor/src/libs/process_host/handler_process_host.py:78-83 | A process that never dies is never replaced |
| `HandlerSupervision.HandlerHostManager.SupervisePass` | src/ContentProcessor/src/libs/process_host/handler_process_host.py:77-101 | One pass over the list that changes under it makes exactly n visits and has the specified effect |
| `HandlerSupervision.HandlerHostManager.StartHandlerProcesses` | src/ContentProcessor/src/libs/process_host/handler_process_host.py:67-101 | Any number of passes, one after the other |
| `HandlerSupervision.HandlerHostManager.AddHandlersAsProcess` | src/ContentProcessor/src/libs/process_host/handler_process_host.py:51-65 | Registers one more handler with a process of its own |
| `HandlerSupervision.HandlerHostManager.Remove` | src/ContentProcessor/src/libs/process_host/handler_process_host.py:85 | Removes the first equal entry and keeps the order of the rest |
| `PipelineProtocol.PipelineConserves` | src/ContentProcessor/src/libs/pipeline/queue_handler_base.py:176-215 | In every reachable state, with failures or a crash between any two operations, a submitted document has a message in a step queue or a dead-letter queue, or has finished |
| `PipelineProtocol.StepsInOrder` | src/ContentProcessor/src/libs/pipeline/queue_handler_base.py:154-205 | Of every queued message and every finished document: the steps on its way have successful executions for this document in the record, in that order; with distinct steps the way to step k is exactly steps 0 to k-1, and that of a finished document all of them |
| `PipelineProtocol.OnlyExecutionRecords` | src/ContentProcessor/src/libs/pipeline/queue_handler_base.py:170-195 | Only a successful execution extends that record, by the document and step the handler was working on |
| `PipelineProtocol.HopsDescend` | src/ContentProcessor/src/libs/pipeline/pipeline_queue_helper.py:70-82 | Passing on uses up exactly one of the remaining steps |
| `PipelineProtocol.DeadLettersAreLate` | src/ContentProcessor/src/libs/pipeline/queue_handler_base.py:321-365 | Dead-lettered messages were received more than five times |
| `PipelineProtocol.RunKeeps` | src/ContentProcessor/src/libs/pipeline/queue_handler_base.py:95-426 | Every run keeps the pipeline invariant |
| `PipelineProtocol.RemoveIsSafer` | src/ContentProcessor/src/libs/pipeline/pipeline_queue_helper.py:50-62 | Deleting a message whose document is safe without it keeps every document safe |
| `PipelineHandler.ReliableRound` | src/ContentProcessor/src/libs/pipeline/queue_handler_base.py:176-235 | A fault-free round moves the document on by one step: its message leaves this queue and exactly one enters the next, or it finishes |
| `PipelineHandler.RoundReachable` | src/ContentProcessor/src/libs/pipeline/queue_handler_base.py:95-426 | A round with any faults keeps every property of reachable states |
| `PipelineHandler.RoundExactly` | src/ContentProcessor/src/libs/pipeline/queue_handler_base.py:95-426 | Every round, field by field and for every combination of faults: what is sent on, whether the message leaves, the record, and past five receives the dead-letter copy of a failing message, which is deleted only once that copy was sent |
| `PipelineHandler.QueueHandler.HandleMessage` | src/ContentProcessor/src/libs/pipeline/queue_handler_base.py:95-426 | The receive loop’s body: execute, send on, delete, report, or the except block; the new state in full, and field by field as in `RoundExactly` |
| `PipelineHandler.QueueHandler.Execute` | src/ContentProcessor/src/libs/pipeline/queue_handler_base.py:170-200 | A step that executes is recorded and leads on to sending; one that raises leads to the except block |
| `PipelineHandler.QueueHandler.PassDataPipelineToNextStep` | src/ContentProcessor/src/libs/pipeline/pipeline_queue_helper.py:70-82 | Sends the payload to the next step’s queue, or nothing after the last step |
| `PipelineHandler.QueueHandler.MoveToDeadLetterQueue` | src/ContentProcessor/src/libs/pipeline/pipeline_queue_helper.py:55-62 | Sends the copy first and deletes, under the current receipt, only after the send returned; both queues in full |
| `PipelineHandler.QueueHandler.DeleteQueueMessage` | src/ContentProcessor/src/libs/pipeline/pipeline_queue_helper.py:50-52 | Deletes exactly the message under its current receipt, else raises |
| `PipelineHandler.QueueHandler.Except` | src/ContentProcessor/src/libs/pipeline/queue_handler_base.py:243-426 | The except block: after more than five receives the dead-letter copy and then the deletion, else the message is left for another receive; what raises in it ends the process; both queues in full for every fault |
| `PipelineSteps.CompletesExactly` | src/ContentProcessor/src/libs/pipeline/pipeline_step_helper.py:15-23 | Following the next step from the first one ends if and only if no step is named twice |
| `PipelineSteps.WalkedInOrder` | src/ContentProcessor/src/libs/pipeline/pipeline_step_helper.py:19-23 | With distinct steps the way to a step is the list of steps before it |
| `PipelineSteps.HopsInOrder` | src/ContentProcessor/src/libs/pipeline/pipeline_step_helper.py:19-23 | With distinct steps the n-th hop is the n-th step, and the walk ends after the last |
| `PipelineSteps.HopsStayBelow` | src/ContentProcessor/src/libs/pipeline/pipeline_step_helper.py:19 | A step named twice sends the walk back for ever |
| `PipelineSteps.IndexOf` | src/ContentProcessor/src/libs/pipeline/pipeline_step_helper.py:19 | The first position of the step, or nothing when it is not listed |
| `ClaimWorkflow.StatusesFollowThePath` | src/ContentProcessorWorkflow/src/steps/claim_processor.py:160-274 | For a fixed RAI flag and every event stream the graph can produce, the status writes are a prefix of the one path, closed by COMPLETED or FAILED only as the run ends so |
| `ClaimWorkflow.SuccessIsCompleted` | src/ContentProcessorWorkflow/src/steps/claim_processor.py:219-226 | The run returns only after every status of the path and COMPLETED were written |
| `ClaimWorkflow.SuccessExactly` | src/ContentProcessorWorkflow/src/steps/claim_processor.py:179-274 | For every stream of the graph the run returns if and only if an output occurs in it, every use of the repository up to and including the COMPLETED write goes through, and the closing update does not fail |
| `ClaimWorkflow.SuccessIsDeleted` | src/ContentProcessorWorkflow/src/services/queue_service.py:1055-1058 | Such a run has its message deleted in that attempt, with no letter |
| `ClaimWorkflow.OutcomeExactly` | src/ContentProcessorWorkflow/src/steps/claim_processor.py:160-294 | For every stream at all, by its positions and the answers of the repository: when the run returns, when it reports a failure and of which executor, when it is cancelled, and that it raises otherwise |
| `ClaimWorkflow.WritesExactly` | src/ContentProcessorWorkflow/src/steps/claim_processor.py:179-274 | The status writes up to where the run stops, exactly: one for each executor invoked, in the order of the path, then the one of the event it stops at |
| `ClaimWorkflow.FailureIsForcedExactly` | src/ContentProcessorWorkflow/src/steps/claim_processor.py:229-249 | In a stream of the graph the first workflow failure reaches the caller as the exception of the forced path if and only if no output came before it, every use of the repository up to and including its FAILED write goes through, and neither the comment nor the closing update fails; it then names the failure’s executor, else the last that failed, else the last invoked |
| `ClaimWorkflow.ReportedFailureIsDeadLettered` | src/ContentProcessorWorkflow/src/services/queue_service.py:1059-1070 | A reported executor failure becomes a forced dead letter and leaves the queue in the same attempt, whatever the attempt count |
| `ClaimWorkflow.ClaimProcessor.Run` | src/ContentProcessorWorkflow/src/steps/claim_processor.py:179-294 | The event loop with its locals, status writes and finally block equals the specified fold over the stream, and its outcome is the one `OutcomeExactly` gives by positions |
| `Base64.DetectionIsExact` | src/ContentProcessor/src/libs/utils/base64_util.py:13-26 | A text is taken for Base64 if and only if it is the encoding of some bytes, if and only if it is in the canonical form of RFC 4648 section 3.5 |
| `Base64.RoundTrip` | src/ContentProcessor/src/libs/utils/base64_util.py:20-23 | Strict decoding gives back the encoded bytes |
| `Base64.EncodesNumbers` | src/ContentProcessor/src/libs/utils/base64_util.py:20-23 | Every three bytes are spelled by the four base-64 digits of the number they make, in the alphabet of RFC 4648 section 4; `EncodesEnds` has the padding |
| `Base64.CanonicalDecodes` | src/ContentProcessor/src/libs/utils/base64_util.py:20-23 | A canonical text decodes to bytes that encode to it |
| `Base64.ForeignNeverDecodes` | src/ContentProcessorWorkflow/src/services/queue_service.py:107-121 | No text with a character outside the alphabet decodes strictly |
| `Utf8.TextRoundTrip` | src/ContentProcessorWorkflow/src/services/queue_service.py:102-115 | Strict UTF-8 decoding gives back the encoded text |
| `ClaimPayload.BothFormsAgree` | src/ContentProcessorWorkflow/src/services/queue_service.py:99-138 | The parser gives the same result, error or claim id, for a JSON object text, its UTF-8 bytes, the Base64 of those bytes, and the bytes of that |
| `ClaimPayload.BraceIsKept` | src/ContentProcessorWorkflow/src/services/queue_service.py:107-121 | A text with a brace is read as it stands and never taken for Base64 |
| `ClaimPayload.ClaimIdIsClean` | src/ContentProcessorWorkflow/src/services/queue_service.py:1369-1388 | A claim id comes from the id member of a JSON object, is not empty and has no space at either end, so the caller’s second strip and check change nothing |
| `ClaimPayload.AcceptedIsJson` | src/ContentProcessorWorkflow/src/services/queue_service.py:99-138 | Every payload, text or bytes, that yields a claim id is one of the four forms of a JSON object text, and all four yield that id |
| `ClaimPayload.ClaimIdExactly` | src/ContentProcessorWorkflow/src/services/queue_service.py:123-138 | A payload gives a claim id if and only if its trimmed text starts an object, loads as one, and the first `claim_process_id` of it is not a value that counts as nothing; the id is that string, or its str(), without the spaces at its ends |
| `OrderedDicts.ExtendByDict` | src/ContentProcessor/src/libs/utils/utils.py:52-63 | Going through an intermediate dict changes nothing |
| `OrderedDicts.NoLossExactly` | src/ContentProcessor/src/libs/utils/utils.py:63 | The dict of some pairs has as many entries as there are pairs if and only if their keys differ |
| `FlattenDict.Flatten` | src/ContentProcessor/src/libs/utils/utils.py:38-63 | The recursive method with its item lists and nested dicts returns the dict of the leaves |
| `FlattenPaths.FlatteningLosesNothing` | src/ContentProcessor/src/libs/utils/utils.py:38-63 | With clean keys the result has exactly one entry per scalar leaf, keyed by its joined path, and nothing else; different paths have different keys |
| `FlattenLosses.FlatteningLosesExactly` | src/ContentProcessor/src/libs/utils/utils.py:47-63 | For any keys, separator and parent key: no entry is lost if and only if no two different leaf paths join to the same key, dict keys joined by the separator and list positions by "_" |
| `FlattenPaths.UnderscoreCollides` | src/ContentProcessor/src/libs/utils/utils.py:52-54 | Concrete input: a key with an underscore collides with a path |
| `FlattenPaths.KeyOfInjective` | src/ContentProcessor/src/libs/utils/utils.py:52-54 | Clean paths with the same joined key are the same path |
| `FilenameSanitizing.SanitizeFilename` | src/ContentProcessorAPI/app/utils/upload_validation.py:25-90 | The result is not empty, uses only the safe alphabet, neither starts nor ends with a space or dot, has at most max(max_chars, 17) characters and keeps a safe extension of 2 to 16 characters not ending in a space or dot; it fails exactly when the normalised name is too long in UTF-8; and step by step it is the trimmed last component, normalised, without control characters, "file" for no name, with as much of the stem as the extension leaves room for and at least one character |
| `FilenameSanitizing.SafeNameIsSafe` | src/ContentProcessorAPI/app/utils/upload_validation.py:69-90 | The same of every stem and extension; the last fallback is never needed |
| `FilenameSanitizing.NameExactly` | src/ContentProcessorAPI/app/utils/upload_validation.py:69-90 | The name for every stem and extension: at most 16 characters of the extension, then exactly max(1, max_chars - their number) characters of a longer safe stem, its spaces and dots trimmed |
| `FilenameSanitizing.SplitExactly` | src/ContentProcessorAPI/app/utils/upload_validation.py:70 | The extension is the last dot of the last component and what follows, if something other than dots comes before it there; else there is none |
| `FilenameSanitizing.RunBecomesOne` | src/ContentProcessorAPI/app/utils/upload_validation.py:73-74 | A run of unsafe characters between safe ones becomes one underscore |
| `FilenameSanitizing.ControlsGo` | src/ContentProcessorAPI/app/utils/upload_validation.py:63 | Exactly the control characters are dropped |
| `FilenameSanitizing.SubstituteKeeps` | src/ContentProcessorAPI/app/utils/upload_validation.py:74-75 | Replacing unsafe runs keeps every safe character, in order |
| `FilenameSanitizing.LimitHoldsExactly` | src/ContentProcessorAPI/app/utils/upload_validation.py:69-90 | Every name returned for every input has at most max_chars characters if and only if max_chars is at least 17 |
| `FilenameSanitizing.ShortestIsKept` | src/ContentProcessorAPI/app/utils/upload_validation.py:69-90 | Concrete input: one character with a 16-character extension comes back whole under every limit |
| `FilenameSanitizing.PathDroppedExactly` | src/ContentProcessorAPI/app/utils/upload_validation.py:45-47 | What is kept of the path is the part after the last separator of either kind, as the description promises, if and only if no run of backslashes of odd length is followed by neither "/" nor two backslashes in a row; otherwise the kept name has that backslash in it |
| `FilenameSanitizing.SingleBackslashIsJoined` | src/ContentProcessorAPI/app/utils/upload_validation.py:45-90 | With such a single backslash the directory before it becomes part of the returned name, joined by "_" |
| `FilenameSanitizing.SingleBackslashExample` | src/ContentProcessorAPI/app/utils/upload_validation.py:45-90 | Concrete input: a\b.txt is returned as a_b.txt, where the description promises b.txt |

## Left out

- Azure SDK, Cosmos, blob and HTTP clients, credentials, telemetry and logging: storage calls are environment choices of success, failure before or after the effect, stale receipt or not found.
- Message time-to-live and poison handling inside the storage service.
- SleepSeconds: taken as the exact 3/5 of the timeout, cut to a whole number; the code multiplies by the float 0.6 first, which agrees for whole minutes.
- ClaimQueueService.Service.ProcessQueueMessage: one worker acting alone, with its renewals before the workflow's return; every interleaving with other workers, cancellation and lost answers is in the step system, which the method is a run of.
- ClaimQueueService.Service.StopProcess: the method has nothing happen between its deletions and the cancellation, and waits for the whole finally block; in the step system these are separate events with any others in between, and QueueStop.StopsNamedJobExactly says when the job cancelled is the one named.
- The worker loop's own fallback for a job task that raises: message processing never raises anything but a cancellation.
- Exceptions other than Azure errors inside failure handling, which start it over or are swallowed; of those, the delete after success is modelled.
- The end of a worker loop, which pops the process entry alone: a worker that has ended receives nothing more.
- A Python task cancelled while its thread is in a call: modelled by the orphaned calls of the step system.
- Pydantic's coercions, its field-name restrictions and `Literal` on unhashable values: acceptance is structural.
- Case mapping in inline model names: `str.capitalize` is a parameter.
- `model_rebuild`: forward references are resolved by name in the finished table.
- FlattenLosses.FlatteningLosesExactly: for data whose dicts have each key once, as Python dicts do.
- The exact conditions on `required` are for lists; a text there is read as its characters, as `set` does.
- JSON objects have the keys `json.loads` leaves; where a document repeats a key the first occurrence in the list is the one looked up.
- The Draft 2020-12 meta-schema check and JSON parsing: parameters of the validator and of the payload parser.
- `derive_class_name`, MIME sniffing, upload size checks and `value_match`/`value_contains`: one-branch facts or, for the last two on containers, plain equality.
- Retry and back-off around the chat client, and the context-length error predicates.
- ContextChat.Chat.SetMessageText: an attribute whose setter raises is a flag of the object; properties with other side effects are not modelled.
- The pipeline handler's branch for messages that do not parse, and the step-result and artifact files of the pipeline status: messages parse, and only the step list, the active step and the executed steps are modelled.
- PipelineProtocol.StepsInOrder: a step may have further executions in the record, since one that executed is repeated after a failed send; that the way is a prefix of the list is stated for distinct steps, as a repeated step is never passed (see PipelineSteps.CompletesExactly).
- PipelineHandler.QueueHandler.Except: the visibility timeout it sets, and that call failing, are not in the contract: pipeline messages carry no times, and one left in its queue can be received at any later moment.
- PipelineProtocol.PipelineConserves: visibility timeouts are not timed; a message can be received again at any moment, which covers every timing.
- `start`/`join` of operating-system processes: a visit is told which processes have ended.
- The Agent Framework runtime: its event streams are those the graph's edges allow, with other events anywhere and cut off anywhere.
- Base64.Decode: the strict decoder of CPython 3.12, which ignores leftover bits and padding after a complete group.
- FilenameSanitizing.SanitizeFilename: NFKC is a parameter; surrogates do not occur in the model's characters, so the replacement of unencodable text is not modelled; idempotence is not claimed.
- FlattenPaths.FlatteningLosesNothing: for the default separator; list indices are always joined with "_".
- The web client, the FastAPI routers, agent builders, dependency-injection containers and infrastructure templates.
