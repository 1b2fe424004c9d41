# Usage sync and accounting, verified

A desktop application reads the logs of coding assistants, stores one event per billable call, and
uploads the events to a team server that keeps a grouped daily rollup beside the raw rows. This project
models that path in Dafny, together with the accounting that hangs on it, and proves what the parts
promise each other. The lists below name files; `dafny verify dfyconfig.toml` takes them all together.

* **Sync protocol** (`SyncProtocol`, `SyncSafety`, `SyncRollup`, `SyncProgress`, `SyncPrivacy`, `SyncClient`,
  `LocalDb`, `Redaction`). A transition system in which enqueues, any number of drainers at any of their await points,
  lost, delayed and repeated requests, commits, failures, crashes, other clients and membership changes
  interleave at will. The queue and its repositories are classes; lemmas say that an acknowledged, a failing
  and an empty drain of the class are runs of the protocol.
* **Team server** (`TeamModel`, `TeamBatch`, `TeamService`, `TeamRollup`, `TeamCap`, `TeamBatching`,
  `TeamAdmission`, `TeamSplits`, `TeamReplay`, `TeamDailyReplay`, `TeamTimes`, `TeamMembership`, `TeamRuns`,
  `TeamColumns`, `TeamEffects`, `TeamRevocation`, `TeamOverview`).
  `BatchUpsert` is modelled with its loop, its three in-batch caches and its grouped deltas, and refines a naive
  server that handles one payload per transaction.
* **Resumable ingestion** (`Jsonl`, `FileCache`, `Ingestion`, `GeminiParser`, `GeminiResume`,
  `GeminiExact`, `GoogleProvider`, `CodexParser`, `CodexResume`, `ClaudeParser`, `ClaudeResume`, `ClaudeRuns`, with `LogContent`). Logs are bytes,
  lines are cut out of them, refreshes see a growing file between `stat` and read.
* **Smaller pieces** (`NamedQuery`, `DailyRedaction`, `DailyColumns`, `Aggregation`, `Spread`, `PricingTable`, `Alerts`,
  `ProviderRefresh`, with `UsageSums` and `JoinedKeys` below them).

Where a property of the design fails for some inputs, the project says exactly when it holds, and, where the
condition does not show it at once, gives an input for which it fails:

* The rollup agrees with the raw events unless two new events of one batch share a bucket text without sharing a
  rollup row (`TeamAdmission.RollupAgreesIff`); bars in names make that possible (`TeamAdmission.CollisionBreaks`).
* A batch of bar-free names can be cut in two unnoticed unless it admits a node whose row belongs to another user,
  or one node from two users (`TeamSplits.SplitsIff`, `TeamSplits.CutShows`): the row keeps its owner, but the batch counts the node
  against the cap.
* Sending a batch again changes no event and no rollup row (`TeamReplay.ReplayHarmless`). It keeps the contents of
  the daily rows unless two admitted payloads of different users or nodes have one node key
  (`TeamDailyReplay.ReplayDays`, and exactly: `TeamDailyReplay.ReplayDaysIff`); bars in names make that possible
  (`TeamDailyReplay.BarredReplay`).
* A reparsed Codex log agrees with a full parse unless a row with usage lacks its timestamp
  (`CodexResume.EveryRunAgreesIff`).
* A resumed Claude log agrees with a full parse unless a row with usage lacks its timestamp, or some row that counts
  is followed by a last row of the same message that bears another time or counts nothing
  (`ClaudeRuns.EveryRunAgreesIff`, `ClaudeRuns.TwoTimesShow`).
* A resumed Gemini log agrees with a full parse unless a row with usage lacks its timestamp
  (`GeminiExact.EveryRunAgreesIff`), or, where file sizes are taken inside lines, some line with an event was never
  read whole (`GeminiExact.RunAgreesIff`, `GeminiExact.CutInsideLoses`).
* A positional statement keeps its meaning unless the text has a `$` right before a digit
  (`NamedQueries.MeaningKeptIff`, `NamedQueries.DollarMisread`).
* Splitting a daily key gives provider and model back unless one of them contains a bar
  (`DailyRedaction.SplitUndoesKeyIff`).
* The role that enrolment reports is the stored one unless a known user asks for another role than the stored one,
  or names none while being an admin or in a team without any (`TeamMembership.ReportedRoleIff`,
  `TeamMembership.ReportsAnotherRole`).

Conventions: a timestamp is an integer of milliseconds, a UTC day is `floor(ts / 86400000)` and stands for its
date text; SQL tables are maps by their conflict key; transactions are atomic, and a `fault` parameter says at
which statement one fails; the clock, what the network answers, what `stat` reports and what a grouping query
answers are parameters. SHA-256 is a function of which only injectivity is used, and floating-point numbers are reals.

Where code and comments of the repository disagree, the code is followed:

* `src/main/sync/transport.ts:15-19` promises that authorization errors stop the queue and that client errors
  drop the batch. `src/main/sync/sync-queue.ts:229-237` treats every kind of error alike: the cursor stays, the
  next drain pulls the same rows.
* `src/main/sync/sync-queue.ts:191-192` calls `seq` gap-free. Suppressed inserts and rolled-back transactions
  use up sequence values, so it has gaps; nothing proved here needs it to be gap-free.
* `src/main/sync/outbox-repository.ts:107-109` speaks of a contiguous range. `markSent` marks everything up to
  a maximum; that this is the drainer's own batch is a theorem about all runs (`SyncSafety.MarksOwnBatch`).
* `server/team-service.ts:79-83` says the very first member becomes admin. `server/team-service.ts:94-102` makes
  one of whoever is added without a role while the team has no admin row, and revoked admins count as admins.
* `src/main/storage/file-cache.ts:8-11` says a parser reparses from byte 0 otherwise. A file of unchanged size
  and new time is resumed at its end by the Gemini and Claude parsers.

## Model

| member | source | states |
|---|---|---|
| SyncRollup.SentCountsOnce | src/main/sync/sync-queue.ts:172-217 | In every interleaving, an outbox row marked sent has its id stored by the server or refused in the answer to an upload of this client; with bar-free names a stored event counts exactly once in its rollup row; with bar-free teams, users and nodes the stored row is that event of this device, for the account it was sent for |
| SyncRollup.SentRowIsOwn | src/shared/sync.ts:175-182 | With bar-free teams, users and nodes, whatever row the server holds under the id of an outbox row marked sent is that very event of that device and account, in every run |
| SyncRollup.AlwaysSelfNamed | server/team-service.ts:310-322 | In every run, bars or not, each stored row is filed under the hash of its own team, user, node and local id |
| SyncRollup.AlwaysNamed | server/team-service.ts:301-333 | With bar-free teams, users and nodes in every upload, whatever the providers and models are called, no stored row has a bar in one of these names |
| SyncSafety.Safety | src/main/sync/sync-queue.ts:150-238 | The protocol invariant holds in every reachable state: drainers hold exactly what is still unsent up to their last row, cursors are never ahead of an unsent row, sent rows and committed requests are settled |
| SyncSafety.SentMeansSettled | src/main/sync/outbox-repository.ts:107-117 | Marked sent implies stored, or refused in the answer to an upload this client made for the account the row was marked for |
| SyncSafety.SentForOneAccount | src/main/sync/sync-queue.ts:172-217 | With one team and user: sent implies settled for them, and a row that is still unsent lies above every cursor |
| SyncSafety.OnlyPeeked | src/main/sync/sync-queue.ts:150-217 | Every request and every row marked sent is for an account some drain was started for |
| SyncSafety.NothingSkipped | src/main/sync/cursor-repository.ts:60-91 | In every reachable state each row at or below any cursor is marked sent |
| SyncSafety.WatermarksNeverFall | src/main/sync/cursor-repository.ts:63-91 | Over whole runs neither the sequence cursor nor the timestamp watermark of an account ever decreases |
| SyncSafety.MarksOwnBatch | src/main/sync/outbox-repository.ts:110-117 | Although `markSent` names only a maximum, the only rows it ever marks are rows of the batch that drainer uploaded |
| SyncPrivacy.OnlyWrittenIsSent | src/main/sync/sync-queue.ts:176-185 | In every interleaving each payload of each request is, field by field, the upload of an event once written, for the account of the request, at a level at which a batch was pulled |
| SyncPrivacy.RedactedSendsNothingPrivate | src/main/sync/redaction.ts:104-133 | A client that only pulls at `redacted` never sends a project, session, message or latency, however its drains interleave, fail and repeat |
| SyncSafety.StepKeeps | src/main/sync/sync-queue.ts:150-238 | Each single step, by whichever drainer, client or server, keeps the protocol invariant |
| SyncRollup.AlwaysClean | server/team-service.ts:364-459 | Whatever is interleaved, the server rollup stays the grouped sum of its raw events as long as names are bar-free |
| SyncRollup.CountedOnce | server/team-service.ts:426-459 | A stored event is in the total of its own rollup row once and in no other row |
| SyncProgress.AckedDrain | src/main/sync/sync-queue.ts:176-208 | An acknowledged drain lowers the pending count by exactly min(500, pending) |
| SyncProgress.DrainIs | src/main/sync/sync-queue.ts:196-237 | By the columns: an acknowledged drain lifts the account's watermarks to its last row and marks just the unsent rows up to it, a failed one moves nothing but the error, no sequence watermark of any account falls |
| SyncProgress.Progresses | src/main/sync/sync-queue.ts:176-217 | After any mix of failed and acknowledged drains the pending count is the start less 500 per acknowledgement, not below zero |
| SyncProgress.EnoughDrainsEmpty | src/main/sync/sync-queue.ts:176-217 | The outbox is empty if and only if at least ceil(n/500) drains were acknowledged |
| SyncProgress.BatchIsPrefix | src/main/sync/outbox-repository.ts:82-94 | A pulled batch is all unsent rows up to its last one, so marking by maximum is exact |
| SyncProgress.DrainIsRun | src/main/sync/sync-queue.ts:172-217 | Seven protocol actions in a row leave the local tables as an acknowledged drain of the queue object does, the server one batch further and the drainer idle |
| SyncProgress.FailureIsRun | src/main/sync/sync-queue.ts:229-237 | Five actions leave the tables as a failing drain of the queue object does, outbox and server untouched |
| SyncProgress.IdleIsRun | src/main/sync/sync-queue.ts:172-178 | With nothing pending a drain leaves everything as it was, as an object and as a run |
| SyncProgress.ExecThen | src/main/sync/sync-queue.ts:150-238 | What starts in a reachable state is part of a run, so the laws of all runs apply to such drains |
| SyncClient.SyncQueue.DrainImpl | src/main/sync/sync-queue.ts:150-238 | Nothing due: nothing changes, and the cadence gate alone reports rate limiting. Due: the wire carries the pending batch, payload by payload the upload of its event field by field, with nothing private below `full`; success marks and advances, failure touches only the stored error |
| SyncClient.SyncQueue.DrainGated | src/main/sync/sync-queue.ts:142-148 | While a drain is in flight a call starts nothing, changes nothing and gets what that drain comes to; otherwise it is one drain, after which the gate is open again even if the drain threw |
| SyncClient.SyncQueue.Settle | src/main/sync/sync-queue.ts:185-237 | Success and failure ends of an upload, with the outcome figures of each |
| SyncClient.SyncQueue.GetStatus | src/main/sync/sync-queue.ts:98-125 | Status of a configured and of an unconfigured account with the node id, stored values before remembered ones; nothing pending and no next time unless enabled with team and user |
| SyncClient.Cadence | src/main/sync/sync-queue.ts:161-168 | After an acknowledged drain unforced drains are refused until a whole interval later, a day unless configured, which is the next time the status shows; a failed drain does not move that time, and its message shows until one is acknowledged; forced drains are never refused |
| SyncClient.LatestTimestamp | src/main/sync/sync-queue.ts:196-199 | The new watermark bounds every timestamp of the batch and the old watermark, and is one of them |
| SyncClient.MakeUpload | src/main/sync/sync-queue.ts:176-183 | Event by event, each payload is, field by field, the upload of its event: billing facts unchanged, project, session, message and latency at `full` only; at the aggregate level rows that sum the events' fields |
| SyncClient.EventRepository.UpsertMany | src/main/storage/event-repository.ts:150-172 | All events and outbox rows or none; a rolled-back transaction still uses up sequence values |
| SyncClient.EventRepository.Upsert | src/main/storage/event-repository.ts:127-148 | The event takes the place of one with its id, and gets an unsent outbox row of this moment after all others unless it has one; or nothing changes |
| SyncClient.OutboxRepository.Pending | src/main/sync/outbox-repository.ts:82-94 | The pending rows above a cursor, oldest first, joined with their events |
| SyncClient.OutboxRepository.PendingCount | src/main/sync/outbox-repository.ts:97-105 | The number of unsent rows above a sequence value, as the size of that set, whatever the batch size |
| SyncClient.OutboxRepository.MarkSent | src/main/sync/outbox-repository.ts:110-117 | Exactly the unsent rows up to the maximum change; all rows up to it are sent afterwards, none appears, disappears or names another event |
| SyncClient.CursorRepository.Advance | src/main/sync/cursor-repository.ts:63-91 | Both watermarks become maxima of old and new, the error is cleared, other accounts keep their cursors |
| SyncClient.CursorRepository.RecordError | src/main/sync/cursor-repository.ts:93-103 | The error is stored, no watermark of any account moves, the time of the last success stays |
| LocalDb.PendingIs | src/main/sync/outbox-repository.ts:82-94 | A pulled batch ascends, is unsent, lies above the cursor, and leaves out nothing unsent below its last row |
| LocalDb.PutAllSane | src/main/storage/event-repository.ts:150-165 | Upserts keep the tables sound: one outbox row per event at most, every row with its event |
| LocalDb.PutAllAppends | src/main/storage/event-repository.ts:150-165 | Upserts never change an outbox row; new rows are unsent and come after all old ones |
| TeamServices.TeamService.BatchUpsert | server/team-service.ts:216-470 | The batched loop with its three caches and grouped deltas computes exactly the specified tables and response, which TeamEffects and TeamColumns tell by their columns; a database failure at any step leaves every table as it was |
| TeamServices.TeamService.Vet | server/team-service.ts:301-348 | Refusals in the order of the checks: team, forged id, no member, revoked, device cap |
| TeamServices.TeamService.Admit | server/team-service.ts:301-362 | An admitted payload touches its node at most once per batch; the caches keep agreeing with the tables |
| TeamServices.TeamService.TakePayload | server/team-service.ts:301-424 | One turn of the loop is one step of the specification |
| TeamServices.TeamService.StorePayload | server/team-service.ts:364-423 | Inserted events go into the delta of their rollup row, duplicates and conflicts do not; daily rows overwrite |
| TeamServices.TeamService.WriteRollups | server/team-service.ts:426-461 | One accumulating upsert per bucket, whatever the iteration order, or nothing when a write fails |
| TeamServices.TeamService.UpsertEvent | server/team-service.ts:476-538 | Fresh, same hash or other hash; a stored row is never changed, a different hash is logged as a conflict |
| TeamServices.TeamService.CheckMember | server/team-service.ts:231-240 | The cached membership status is the stored one; absence is not cached |
| TeamServices.TeamService.LoadUserNodes | server/team-service.ts:251-265 | The cached node set is what counts against the cap for that user at that point of the batch |
| TeamServices.TeamService.AddMember | server/team-service.ts:84-122 | Enrols or reactivates, by the columns of the membership row, and reports the requested role, or admin exactly if the team has no admin row |
| TeamServices.TeamService.RevokeMember | server/team-service.ts:124-130 | An existing row is revoked and keeps its role, nobody else's changes |
| TeamServices.TeamService.SetMemberRole | server/team-service.ts:134-167 | Refuses exactly unknown members and the demotion of the last admin, and then changes nothing; otherwise only the role of that row changes |
| TeamServices.UpsertsAll | server/team-service.ts:431-459 | The grouped upserts come to the same rollup in every iteration order of the bucket map |
| TeamServices.UserKeyInjective | server/team-service.ts:232-254 | Within one team the cache key determines the user, bars or not |
| TeamRuns.RollupAlwaysAgrees | server/team-service.ts:364-459 | After any run of batches with bar-free user, node, provider and model names, aborts and membership changes the rollup equals the raw events grouped by its key: no row missing, none extra, every total right |
| TeamColumns.RollupColumns | server/team-service.ts:373-459 | After any run of batches with bar-free names there is a rollup row for just the teams, users, nodes, UTC days, providers, models and project hashes that have a stored event; its count is their number, and input, output, cache reads, both kinds of cache writes, reasoning and cost are each the sum of that field of theirs |
| TeamColumns.BatchColumnsIff | server/team-service.ts:373-459 | Over a rollup that is so, a committed batch leaves it so if and only if no two of its new events share a bucket text without sharing a row |
| TeamColumns.AgreesIff | server/team-service.ts:426-459 | Agreement of rollup and raw events is agreement column by column |
| TeamEffects.LastPayload | server/team-service.ts:301-424 | Each payload of a batch, by what the batch leaves with and without it: refused, it changes no table and is reported with the first reason that applies; admitted, its node is seen or enrolled, a daily row is overwritten, an event is inserted without session and message, or is a duplicate, or is logged as a conflict, and the cursor moves to its time at least |
| TeamEffects.LastRollup | server/team-service.ts:373-459 | Unless bucket texts collide, a payload adds to the rollup exactly if it is the first with its id of an event that is not stored, and then field by field to its own row, which takes its pricing version and the time of the batch |
| TeamEffects.RefusalTells | server/team-service.ts:301-333 | The five checks by the columns they look at: team, hash of team, user, node and local id, membership row, its status |
| TeamEffects.NoPayload | server/team-service.ts:216-232 | An empty batch changes nothing and answers with empty lists and a zero cursor |
| TeamRevocation.RevokedGainsNothing | server/team-service.ts:325-333 | Over any run, bars or not: while a revoked member is not enrolled again, the server gains no event, daily row, rollup row, count or node for that member, whoever uploads what |
| TeamAdmission.RollupAgreesIff | server/team-service.ts:373-459 | A committed batch keeps that agreement if and only if no two new events among its admitted payloads share a bucket text without sharing a rollup row; which these are is told from stored tables and payloads alone |
| TeamAdmission.CollisionBreaks | server/team-service.ts:373-404 | For any x, y, z: an event of node `y` bar `z` of user x and one of node z of user x bar y, in one batch, leave the rollup without the second |
| TeamAdmission.ScanIs | server/team-service.ts:301-424 | The batch loop admits, counts against the cap, touches and inserts what a definition over stored tables and payloads says |
| TeamAdmission.NewRow | server/team-service.ts:310-322 | Every row a batch adds is the event of one of its payloads that passed all checks, stored under the id it came with |
| TeamRollup.BarFreeAgrees | server/team-service.ts:373-459 | A batch with bar-free user, node, provider and model names never collides, so it keeps the agreement |
| TeamBatch.FlushAdds | server/team-service.ts:371-404 | Bucketing an event and upserting later is writing it to the rollup now, unless its bucket is filed for another row |
| TeamBatching.BatchIsOneByOne | server/team-service.ts:301-461 | For batches with bar-free names of which no proper front part counted a foreign node, the cached, grouped, batched server equals a naive server that handles one payload per transaction, tables and responses |
| TeamBatching.SingleIsOne | server/team-service.ts:301-461 | A batch of one payload is the naive server for every state and payload |
| TeamAdmission.OwnNodesOneByOne | server/team-service.ts:301-461 | For batches with bar-free names whose payloads admitted before the last one have one owner per node, the batched server is the naive server |
| TeamBatching.AttachedSplits | server/team-service.ts:231-265 | With bar-free names, and if batch `a` counted only pairs with rows of their own, one batch `a + b` equals batch `a` then batch `b`, tables and responses |
| TeamSplits.SplitsIff | server/team-service.ts:251-265 | A batch with bar-free names can be merged with every such continuation unnoticed if and only if its admitted payloads have one owner per node: no stored row of somebody else, no second sender |
| TeamAdmission.AttachedIff | server/team-service.ts:341-362 | A batch with bar-free names counts only pairs with rows of their own if and only if its admitted payloads have one owner per node |
| TeamSplits.ForeignNodeTells | server/team-service.ts:341-362 | If a batch with bar-free names admits a node of two owners, a later batch of new devices tells the cut: one is refused in one batch and none in two |
| TeamSplits.CutShows | server/team-service.ts:251-265 | A concrete pair of uploads that one batch and two batches answer differently |
| TeamTimes.CutAtAnyTime | server/team-service.ts:244-361 | With bar-free names, and if the first part admits one owner per node only, one upload and two uploads at other moments leave the same tables up to upload times |
| TeamTimes.EraseBatch | server/team-service.ts:242-459 | Batches read the clock only to write it down |
| TeamReplay.ReplayHarmless | server/team-service.ts:476-498 | Sending any committed batch again, bars, foreign nodes and full caps included, leaves events, rollup and members untouched |
| TeamDailyReplay.ReplayDaysIff | server/team-service.ts:341-362 | Sending a committed batch again keeps the contents of every daily row if and only if, for the rows of pairs it admitted without counting them, the last payload admitted again says what the last one admitted at first said |
| TeamDailyReplay.ReplayDays | server/team-service.ts:341-362 | That is so when no two admitted payloads share a node key without sharing user and node |
| TeamDailyReplay.BarFreeReplayDays | server/team-service.ts:549-559 | In particular when no user and node name of the batch has a bar |
| TeamDailyReplay.BarredReplay | server/team-service.ts:341-360 | An upload of five daily payloads, two users alike but for a bar, whose replay writes an earlier count over a later one |
| TeamDailyReplay.DaysWritten | server/team-service.ts:549-559 | What a batch leaves in the daily table: the last admitted payload for each row, every other row as it was |
| TeamReplay.StoredReplay | server/team-service.ts:364-409 | A batch whose events are all stored adds neither an event nor a count, in any state |
| TeamReplay.RowsImmutable | server/team-service.ts:476-498 | No batch alters or removes a stored event, whatever payload hash it carries |
| TeamReplay.AllAnswered | server/team-service.ts:301-424 | After a commit every event of the batch is stored or reported rejected |
| TeamReplay.AnsweredOnce | server/team-service.ts:301-424 | The three response lists together are as long as the batch |
| TeamRuns.StoredForEver | server/team-service.ts:472-498 | A stored event row is the same in every later state |
| TeamCap.DeviceCap | server/team-service.ts:335-362 | Whatever new nodes and users a batch mixes, nobody ends with more node rows than the larger of the cap and their starting number |
| TeamCap.OldNodesPass | server/team-service.ts:335-348 | A node the user already has is never refused for the cap, at any point of any batch |
| TeamCap.OwnersStay | server/team-service.ts:355-360 | A node row never changes owner and never disappears |
| TeamRuns.CapHolds | server/team-service.ts:335-362 | The cap holds over serial runs for every team and user |
| TeamMembership.AlwaysAnAdmin | server/team-service.ts:134-167 | A team with an admin keeps one through every serial run of membership changes |
| TeamMembership.ChangeDoes | server/team-service.ts:84-167 | Each membership change by its columns: enrolling activates and keeps a stored role, revoking keeps the role, a role change keeps the status and is refused for the last admin; nobody else's row changes |
| TeamMembership.RevokedUntilEnrolled | server/team-service.ts:124-130 | A revoked member stays revoked through every change but enrolment |
| TeamMembership.ReportedRoleIff | server/team-service.ts:94-116 | The role that enrolment reports is the stored one if and only if the user is new, asks for the role they have, or names none, is no admin and finds the team with one |
| TeamMembership.ReportsAnotherRole | server/team-service.ts:94-116 | A revoked plain member enrolled again as admin is reported as admin and stored as plain |
| TeamMembership.RowsStay | server/team-service.ts:124-130 | Membership rows are never removed |
| TeamRuns.AlwaysEnrolled | server/team-service.ts:325-333 | In every run stored events, daily rows and rollup rows only belong to users with a membership row |
| TeamOverview.TotalIsRaw | server/team-service.ts:741-746 | For a rollup in agreement, the window total read from it equals re-summing the raw events of the window's days, plus the pre-aggregated rows |
| TeamOverview.TotalCoversCutoff | server/team-service.ts:595-600 | For a rollup in agreement and no negative costs, the total is at least what was spent since the exact cutoff and reaches back less than a day further |
| TeamOverview.MembersAddUp | server/team-service.ts:627-644 | Where rows only belong to members, the member list loses no usage: its totals add up to the window total, in agreement with the raw events or not |
| TeamOverview.ModelsAddUp | server/team-service.ts:703-712 | The provider and model list adds up to the window total |
| TeamOverview.MemberIsRaw | server/team-service.ts:627-644 | For a rollup in agreement, each member's row is the sum of that member's daily rows and, column by column, of that member's stored events of the window's days |
| TeamOverview.ModelIsRaw | server/team-service.ts:703-712 | So is the row of each provider and model |
| TeamOverview.DashboardAgrees | server/team-service.ts:627-746 | In every run the member list and the model list add up to the total; if names were bar-free, to the raw events as well |
| TeamModel.SyncEventIdInjective | src/shared/sync.ts:175-182 | Ids of bar-free team, user and node and any local id never collide |
| TeamModel.KeyTextInjective | server/team-service.ts:373-373 | The rollup map key is injective when its first five parts are bar-free |
| JoinedKeys.JoinInjective | src/shared/sync.ts:175-182 | A joined key determines its parts as soon as all but the last are bar-free |
| JoinedKeys.SplitUndoesJoin | src/main/sync/redaction.ts:174-174 | Splitting undoes joining for bar-free parts |
| Redaction.ProjectHashInjective | src/main/sync/redaction.ts:38-41 | Two projects of one team never share a hash, whatever the team is called |
| Redaction.RedactsIntoUpload | src/main/sync/redaction.ts:62-133 | The upload of an event field by field at both levels, with its ids and the hash of its project written out |
| Redaction.RedactedHides | src/main/sync/redaction.ts:104-133 | Two events have the same redacted payload apart from payload and project hash if and only if they agree in everything but project, session, message, latency and what stays on the machine |
| Redaction.FullIsLossless | src/main/sync/redaction.ts:70-102 | A receiver reads the whole event off a `full` payload, local file labels aside |
| Redaction.PayloadHashIff | src/shared/sync.ts:186-204 | With bar-free texts two uploads carry one payload hash, whatever the levels and accounts, if and only if id, provider, model, time, tokens, cost, pricing version, project, session and message agree, missing ones being empty |
| DailyRedaction.RedactToDaily | src/main/sync/redaction.ts:150-227 | One row per bucket key, each the fold of its events, no key twice, no event without its row |
| DailyRedaction.Conserves | src/main/sync/redaction.ts:172-206 | Event count, every token field and cost are conserved over any event list, bars or not |
| DailyColumns.RowsUpload | src/main/sync/redaction.ts:150-227 | With bar-free names: one row for each UTC day, provider and model of an event, its columns the sums of the fields of just those events, its pricing version the greatest of theirs, its names those of the account |
| DailyColumns.RowColumns | src/main/sync/redaction.ts:172-206 | Whatever the names, each row's columns are the sums of the fields of the events with its key text |
| DailyRedaction.OneRowEach | src/main/sync/redaction.ts:148-153 | Exactly one row for each day, provider and model that occurs, when names are bar-free |
| DailyRedaction.RowsPermute | src/main/sync/redaction.ts:172-206 | A permuted event list yields the same rows |
| DailyRedaction.OrderIrrelevant | src/main/sync/redaction.ts:172-206 | A bucket depends on the events and not on their order, the kept pricing version included |
| DailyRedaction.SplitUndoesKeyIff | src/main/sync/redaction.ts:140-174 | Splitting the key gives provider and model back if and only if neither contains a bar |
| DailyRedaction.KeyParts | src/main/sync/redaction.ts:140-174 | The key always splits into at least three parts, the first of which is the day |
| GeminiResume.ResumingIsParsingInFull | src/main/parsers/gemini.ts:79-168 | If every row with usage has a timestamp, any run of refreshes of a growing log with sizes at line ends, reads overlapping at will, ends with the event table and the outbox order of one full parse |
| GeminiExact.RunAgreesIff | src/main/parsers/gemini.ts:79-168 | Any run of refreshes with file sizes taken anywhere agrees with a full parse if and only if every line with an event lies whole in one of the stretches that were read; for logs with timestamps and distinct ids whose lines mean nothing without their start, and a store without their events |
| GeminiExact.EveryRunAgreesIff | src/main/parsers/gemini.ts:120-168 | Every caught-up run with sizes at line ends agrees with a full parse at any time if and only if every row with usage has a timestamp |
| GeminiExact.CutInsideLoses | src/main/parsers/gemini.ts:161-168 | If in such a log a file size is taken inside a line with an event whose front means nothing yet, two refreshes are caught up and the event a full parse stores is not there |
| GeminiExact.ReadIs | src/main/parsers/gemini.ts:87-107 | A read that starts and ends anywhere yields the events of the lines that start in it and that it reaches the end of, and no other |
| GeminiResume.FullParseIsStableIff | src/main/parsers/gemini.ts:120-132 | A full parse yields the same whenever it happens if and only if every row with usage has a timestamp |
| GeminiResume.OneMoreWindow | src/main/parsers/gemini.ts:87-107 | In a log with timestamps, one more overlapping read extends the ingested front of the log and changes nothing before it |
| GeminiParser.ParseGeminiFile | src/main/parsers/gemini.ts:74-171 | Skips an unchanged file, otherwise yields one event for each line from the cached offset on that counts tokens and has a readable time, field by field, tool tokens counted as output; remembers the size `stat` saw, not what was read |
| GeminiParser.EventsTell | src/main/parsers/gemini.ts:109-158 | The same for every front part of the lines |
| GoogleProviders.GoogleProvider.RefreshImpl | src/main/providers/google/index.ts:59-68 | The cache has moved on whether or not the upsert goes through |
| GoogleProviders.RunOfRefreshes | src/main/providers/google/index.ts:59-68 | Refresh after refresh, store and cache are those that the windows of the run leave |
| FileCaches.NoSecondRead | src/main/parsers/gemini.ts:161-168 | What lies below a size that made it into the cache is never read again by a resuming parser, even if its upsert failed |
| FileCaches.RunConsults | src/main/parsers/gemini.ts:82-97 | After any run of refreshes a file is passed over exactly if the last size and time reported are those of now; a resuming parser starts at that size, at zero if the file has shrunk below it |
| FileCaches.WindowsTile | src/main/parsers/gemini.ts:82-97 | The stretches read by successive refreshes start at zero, leave no gap and never end earlier than before |
| FileCaches.WindowsCover | src/main/parsers/gemini.ts:88-90 | Once caught up everything has been read, even if the last refresh skipped the file |
| FileCaches.FileCache.Upsert | src/main/storage/file-cache.ts:45-61 | What was put under a path is found there next, other paths keep theirs |
| FileCaches.Consult | src/main/parsers/gemini.ts:82-97 | Whether an unchanged file can be skipped, and where to resume otherwise |
| FileCaches.Remember | src/main/parsers/gemini.ts:161-168 | Leaves the stat of this refresh in the cache, and no other path's row changed |
| Jsonl.LinesCut | src/main/parsers/jsonl.ts:23-45 | Reading up to a line end and on from there is reading straight through, byte offsets included |
| Jsonl.ReadLines | src/main/parsers/jsonl.ts:23-45 | The line loop returns just the non-empty stretches between line breaks, in order, each with the absolute byte offset of its start |
| Jsonl.LinesReach | src/main/parsers/jsonl.ts:20-22 | A read that stops inside a line differs from whole lines in its last line only |
| Jsonl.ReachMonotone | src/main/parsers/jsonl.ts:20-22 | Reading further never reaches less far, half-written last lines included |
| Jsonl.EventIdInjective | src/main/parsers/jsonl.ts:55-59 | Within a provider and session an event id determines message name and timestamp, whatever characters the name holds |
| Ingestion.AbsorbOverlap | src/main/storage/event-repository.ts:150-165 | Upserting an overlapping stretch again comes to the same table and queue as upserting straight through |
| Ingestion.QueuedOnce | src/main/storage/event-repository.ts:156-164 | No event is ever queued twice, however often it is upserted |
| Ingestion.PutAllView | src/main/storage/event-repository.ts:150-165 | Table and outbox order after a transaction are those of upserting one event after the other |
| CodexResume.ReparsingIsParsingOnce | src/main/parsers/codex.ts:95-200 | If every row with usage has a timestamp, any run of refreshes that ends caught up leaves what one parse leaves, from any store, wherever sizes and reads in between fell |
| CodexResume.EveryRunAgreesIff | src/main/parsers/codex.ts:95-200 | Every caught-up run of refreshes agrees with a full parse at any time if and only if every row with usage has a timestamp |
| CodexResume.OutputExtends | src/main/parsers/codex.ts:117-191 | The output for a front part of the log is a front part of the output, although rows depend on those before them |
| CodexParser.ParseCodexFile | src/main/parsers/codex.ts:90-203 | One event for each line with a token count that is not all zero and a readable time, in order, at its offset: its own input, cached, output and reasoning numbers and time, model, turn and directory from the last row above that set them, session from the latest session row, priced; an unchanged file yields nothing |
| CodexParser.EventsTell | src/main/parsers/codex.ts:112-191 | The same for every front part of a log |
| ClaudeRuns.EveryRunAgreesIff | src/main/parsers/claude-code.ts:97-223 | Every caught-up run of refreshes with sizes at line ends agrees with a full parse at any time if and only if every row with usage has a timestamp, and for every row that counts the last row of its message counts too and bears the same time |
| ClaudeRuns.ResumingIsParsingInFull | src/main/parsers/claude-code.ts:97-223 | For such logs every such run, from any store, leaves the events of one full parse and queues the same ids |
| ClaudeRuns.UnsettledShows | src/main/parsers/claude-code.ts:128-143 | For a log with timestamps that is not so there is a run of two refreshes that stores an event no full parse emits |
| ClaudeRuns.UnstampedShows | src/main/parsers/claude-code.ts:149-152 | For a log with a row without timestamp there is a run that stores an event which a full parse at another time does not emit |
| ClaudeRuns.TwoTimesShow | src/main/parsers/claude-code.ts:128-143 | A two-line log of one message with two times for which two refreshes and a full parse differ |
| ClaudeParser.EmittedIs | src/main/parsers/claude-code.ts:128-214 | A read emits exactly the events of the rows without message id and of the last row of each message |
| ClaudeResume.TakeInMore | src/main/parsers/claude-code.ts:107-143 | One more overlapping read keeps the rows that count in the whole log stored and touches no other id |
| ClaudeParser.ParseClaudeFile | src/main/parsers/claude-code.ts:91-226 | Skips an unchanged file, otherwise yields one event for each row without message id and for the last row of each message that counts, field by field, the old single cache field in the five-minute column, messages in the order in which they open, then the rest |
| ClaudeParser.EmittedTells | src/main/parsers/claude-code.ts:128-214 | The same for any lines at rising offsets |
| NamedQueries.NamedQuery | src/main/storage/db-utils.ts:16-36 | Succeeds exactly when every used name has a parameter, otherwise names the first that is missing; one position per distinct name, numbered by first occurrence |
| NamedQueries.MeaningKeptIff | src/main/storage/db-utils.ts:16-36 | Reading the positional statement with its values says what the named one says if and only if no `$` stands right before a digit |
| NamedQueries.DollarMisread | src/main/storage/db-utils.ts:16-36 | The statement `@a$1` is such a text: rewritten, it is read as two parameters |
| NamedQueries.ReadBack | src/main/storage/db-utils.ts:28-32 | A parameter written as `$` and its number is read back as that number |
| NamedQueries.PositionsAre | src/main/storage/db-utils.ts:27-31 | The positions are the used names, each once |
| NamedQueries.TokensAre | src/main/storage/db-utils.ts:16-36 | A statement is cut without loss into single characters and names of letters, digits and underscores that are as long as they can be; no bare `@` is left before what could start a name |
| NamedQueries.PositionsInOrder | src/main/storage/db-utils.ts:27-31 | Names are numbered in the order of their first uses |
| Aggregation.ForecastsAgree | src/main/aggregation/aggregator.ts:319-395 | For non-negative costs, per-provider spends sum exactly to the total although days are counted from different origins; the floored estimates sum to at most the total estimate and fall short by less than the number of providers |
| Spreads.BandOf | src/main/aggregation/aggregator.ts:378-385 | The loops compute the band: the root of variance times remaining days, rounded to a whole number, halves up |
| Spreads.MeanIsBest | src/main/aggregation/aggregator.ts:379-381 | The spread around the mean is the least around any point, and by how much |
| Spreads.VarianceIs | src/main/aggregation/aggregator.ts:379-381 | The variance is the mean of the squared day costs less the square of their mean |
| Spreads.NoSpreadIff | src/main/aggregation/aggregator.ts:379-381 | The variance is zero if and only if all days cost the same |
| Spreads.NoBand | src/main/aggregation/aggregator.ts:379-385 | With equal days, or no day left, there is no band |
| Spreads.BandWidens | src/main/aggregation/aggregator.ts:383-385 | More remaining days never narrow the band |
| Aggregation.DaysAddUp | src/main/aggregation/aggregator.ts:187-211 | The day costs add up to the range total wherever the days are counted from |
| Aggregation.SeriesAddsUp | src/main/aggregation/aggregator.ts:213-227 | The dense daily series adds up to the range total |
| Aggregation.DailySeries | src/main/aggregation/aggregator.ts:215-227 | Entry `d` of the filled array is the summed cost of the events of the `d`-th day |
| Aggregation.Forecast | src/main/aggregation/aggregator.ts:362-395 | Nothing below three days with events; otherwise whole days elapsed, the summed cost of the range, its truncated projection onto the month and the rounded deviation over the days left, each told by inequalities |
| Aggregation.ForecastByProvider | src/main/aggregation/aggregator.ts:326-358 | One forecast for each provider with an event in the month, told in the same way from the costs of its own events |
| Aggregation.PerDayCostByProvider | src/main/aggregation/aggregator.ts:286-317 | Each provider's list holds its own day costs in row order |
| Aggregation.SharesAddUp | src/main/aggregation/aggregator.ts:326-338 | The provider spends partition the total spend |
| Aggregation.EstimatesFallShort | src/main/aggregation/aggregator.ts:339-340 | Truncating part by part loses less than one micro-USD per further part |
| Aggregation.RangeSplits | src/main/aggregation/aggregator.ts:76-106 | A range total splits at any point in between |
| Aggregation.RangeColumns | src/main/aggregation/aggregator.ts:76-106 | Count, cost and every token figure of a range total are the sums of that field over the events from its start up to, not including, its end |
| Aggregation.HasRowIff | src/main/aggregation/aggregator.ts:184-198 | The grouped answer has a row exactly if the range has an event |
| PricingTables.TotalIsClose | src/main/pricing/pricing-table.ts:112-227 | Integer costs summed over `n` events differ from the exact token-times-rate total by at most `3 n` micro-USD |
| PricingTables.ExactByKind | src/main/pricing/pricing-table.ts:214-226 | Each kind of tokens is charged at its own rate, cache writes at the undivided cache rate if there is no split one, reasoning at the output rate if it has none |
| PricingTables.CostIsMonotone | src/main/pricing/pricing-table.ts:209-227 | More tokens of any kind never cost less |
| PricingTables.CostIsClose | src/main/pricing/pricing-table.ts:112-118 | Rounding costs at most half a micro-USD per kind of token |
| PricingTables.PricingTable.WithSupplementalAliases | src/main/pricing/pricing-table.ts:193-200 | Each nullable field is the base's value, else that of the first prefixed entry, in prefix order, that has one; the two plain rates are the base's |
| PricingTables.PricingTable.Price | src/main/pricing/pricing-table.ts:168-191 | An exact entry is supplemented; otherwise the first of the five prefixed names that exists, then the first entry whose name is a prefix of the model's or the other way round, then the first priced entry with the first keyword of the model that any has, otherwise nothing |
| PricingTables.Cost | src/main/pricing/pricing-table.ts:209-227 | The six local providers cost nothing; otherwise the sum of six charges, each count times the rate of its kind rounded halves up, at the found price or at 3, 15, 0.30, 3.75 and 6 USD per million |
| Alerts.RaisesAreAccountedFor | src/main/alerts/alert-repository.ts:56-75 | In every run the fresh raises of a signature are its resolved rows plus its active rows, of which there is at most one |
| Alerts.ResolvedForEver | src/main/alerts/alert-repository.ts:145-175 | A resolved row is never touched again |
| Alerts.NoneOverslept | src/main/alerts/alert-repository.ts:94-103 | After a wake-up no snoozed row is past due |
| Alerts.AlwaysSane | src/main/alerts/alert-repository.ts:56-175 | At most one active row per signature, and snoozed rows know until when, in every run |
| Alerts.StepDoes | src/main/alerts/alert-repository.ts:56-175 | Each step of a run by its columns: which rows move, the status and times they end with, and which stay |
| Alerts.ResolvedThenRaised | src/main/alerts/alert-repository.ts:56-75 | In any run, once the active row of a signature is resolved, alone or with all others, the next raise under a new id is a fresh open row |
| Alerts.AlertRepository.RaiseIfNew | src/main/alerts/alert-repository.ts:56-75 | Inserts and reports an open row with the given columns exactly if no row with this signature is open, snoozed or acknowledged |
| Alerts.AlertRepository.UnsnoozeExpired | src/main/alerts/alert-repository.ts:94-103 | Exactly the snoozed rows whose time has come become open without one, all others stay; reports how many moved |
| Alerts.AlertRepository.Ack | src/main/alerts/alert-repository.ts:145-151 | An open or snoozed row becomes acknowledged at that time; any other, and every other row, stays |
| Alerts.AlertRepository.Resolve | src/main/alerts/alert-repository.ts:153-159 | A row that is not resolved becomes resolved at that time; a resolved one, and every other row, stays |
| Alerts.AlertRepository.Snooze | src/main/alerts/alert-repository.ts:161-167 | An open or acknowledged row becomes snoozed until that time; any other, and every other row, stays |
| Alerts.AlertRepository.ResolveAll | src/main/alerts/alert-repository.ts:169-175 | Every row that is not resolved becomes resolved at that time, so that none is active; reports how many moved |
| Alerts.AlertRepository.DowngradeOpenCostAlertsToWarning | src/main/alerts/alert-repository.ts:81-90 | Critical rows of a kind starting with `cost.` that are not resolved become warnings, all others stay; reports how many moved |
| ProviderRefresh.FailuresDoNotShow | go-desktop/internal/provider/manager.go:127-143 | Erasing every failed refresh from a serial run changes neither the usage shown nor the notices sent |
| ProviderRefresh.NoticesAreCrossings | go-desktop/internal/provider/budget_notifier.go:32-52 | The notices about a provider are the upward crossings of the threshold among its budgeted successes |
| ProviderRefresh.NoticesShow | go-desktop/internal/provider/budget_notifier.go:32-52 | The notices about a provider are, with their figures, its budgeted successes that spend the threshold's share of the limit or more right after one that spends less, or first of all |
| ProviderRefresh.ShowsLastGood | go-desktop/internal/provider/manager.go:187-206 | Stored spend, budget, percentage and fetch time are those of the last success |
| ProviderRefresh.RunShows | go-desktop/internal/provider/manager.go:127-222 | After any run the stored figures are those of the last success, with the percentage of its spend in its limit; unit, time and error are those of the last try |
| ProviderRefresh.NothingShownBefore | go-desktop/internal/provider/manager.go:187-206 | Until its first success a provider shows no usage |
| ProviderRefresh.NoThresholdNoNotice | go-desktop/internal/provider/budget_notifier.go:35-37 | Without a positive threshold nothing is ever sent |
| ProviderRefresh.RunInSync | go-desktop/internal/provider/budget_notifier.go:38-51 | A provider is marked notified exactly while its stored snapshot is above the threshold |
| ProviderRefresh.FetchWithRetry | go-desktop/internal/provider/manager.go:145-177 | The first success among the permitted attempts, at least one; a missing configuration or a cancelled wait ends it early, otherwise the last error |
| ProviderRefresh.Manager.RefreshOne | go-desktop/internal/provider/manager.go:127-143 | Unconfigured, nothing changes. A success stores its figures, a positive limit in place of the budget with percent times limit being 100 times spend; a failure keeps the stored figures under its message. A notice goes out exactly for a budgeted success with 100 times spend at or above threshold times limit while the provider is not marked |
| ProviderRefresh.Store.Set | go-desktop/internal/provider/store.go:26-34 | Stores the stamped snapshot and hands the same to the listener |
| ProviderRefresh.BudgetNotifier.OnSnapshot | go-desktop/internal/provider/budget_notifier.go:32-52 | Marks and emits on the way up, unmarks on the way down, ignores snapshots without budget |

## Left out

- Totals of aggregate-level uploads across drains: the server overwrites a day row with the bucket of one drain, so they are not conserved; the end-to-end claims are for the full and redacted levels.
- Switching an account between the event levels and the aggregate level.
- SyncProtocol.Step: drains at the aggregate level are not steps of the protocol; `SyncClient.SyncQueue.DrainImpl` covers what one such drain sends and writes.
- TeamServices.TeamService.BatchUpsert: several upload times inside one batch are one clock value; the values a payload cannot be converted from are part of `fault`.
- TeamRuns.CapHolds: serial transactions only; two concurrent batches of one user are not serialised by the code and could exceed the cap together.
- TeamMembership.AlwaysAnAdmin: serial steps only, and a revoked admin still counts as one.
- TeamModel.SyncEventIdInjective: the hash is an injective stand-in; SHA-256 itself, the 32-digit truncation of project hashes and the 24-digit truncation of local event ids are not modelled.
- Jsonl.ReadLines: only line feeds end a line; with carriage returns the offsets the code computes drift. Decoding of UTF-8 is not modelled, one char is one byte.
- Jsonl.ReachMonotone: parsing one line of JSON is a parameter; a half-written line is required to mean nothing or what the whole line means. A line holding the bare value `null` would make two of the parsers throw.
- GeminiExact.RunAgreesIff: what is left of a line when its front is missing is required to mean nothing, as a tail of a JSON object is no JSON object, and no two lines may have one event id.
- GeminiResume.ResumingIsParsingInFull: every refresh of the run completes its upsert; what a failed one loses is `FileCaches.NoSecondRead`.
- ClaudeRuns.EveryRunAgreesIff: message ids that look like the stand-in `noid:` for a missing id are excluded, and the order of the outbox is not claimed, only its contents.
- NamedQueries.NamedQuery: names found on the prototype of a JavaScript object, such as `constructor`, and the quoting rules of SQL are not modelled.
- Aggregation.Forecast: calendar months and time zones; month start, day start and month length are parameters.
- PricingTables.PricingTable.Price: loading the price file and lower-casing names are left to the caller; floating-point rounding of products is not modelled, rates are reals.
- Spreads.Band: floating-point rounding of mean, variance and roots is not modelled; the product of the two square roots is the root of the product.
- ProviderRefresh.Manager.RefreshOne: refreshes are serial; parallel refreshes of one provider between reading the prior snapshot and storing the new one are not modelled, nor are back-off delays, unregistering listeners and the heartbeat.
- SyncClient.SyncQueue.DrainGated: what obtaining the access token does besides failing is not modelled.
- Deleting events (the foreign key of the outbox cascades), schema migrations and the backfill of the rollup.
- Payload fields that are constant or written as null by the server (event version, session and message ids), team rows, display names, privacy floors, the project list and today's figure of the overview.
- HTTP routing, fetch, OAuth, JWKS, keychain; the renderer, tray and IPC.
- The Cursor parser, which resumes without its header state, and the Cursor usage API.
- The Go server, which repeats the batch endpoint without rollup and device cap.
- Plan detection, settings, git scanning, CPU and memory sampling, provider names, and listing or counting alerts.
