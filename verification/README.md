# A verified model of the mirror engine

`slack-mirror` keeps the current state of Slack channels in a database and, optionally, the
bytes of attached files in a blob store. Most of what it stores is redundant: edges, file
rows, blobs, the full-text index and the resolver's caches all follow from the stream of
messages, and they are brought up to date by separate steps that are not atomic together.
This project models those steps and proves that they agree: exactly, when the database
answers, and in the parts that must hold anyway, when anything fails or the process stops.

`dafny verify dfyconfig.toml` checks everything.

## How the model is built

- **Answers are parameters.** Every statement, HTTP call, `Put` and blob deletion takes the
  answer the world gives it: it succeeds, fails, takes effect but is reported as failed, or
  is where the process stops. A failing `Put` may leave the old object or any content.
  `deleted` in `TxAnswer` is only a hint: the blobs already gone when a deletion fails,
  which depends on the unspecified row order.
- **Stopping is an outcome.** A crash may come at any durable operation, so the states in
  which the specification functions end are all the states the world passes through. After
  a crash a new process with empty caches takes over.
- **A run mixes everything.** Each turn of a run (`Serve.Turn`) is an event delivered to the
  consumer, a message of the history visited by a backfill, or a new process taking over
  (a redeploy, or one command after the other), in any order.
- **Success is what the code calls success.** A write completes when it returns without an
  error (`Refinement.Completes`): downloads may have failed, and so may recording how they
  ended. A run without database faults always completes (`Refinement.QuietRunCompletes`).
- **Two layers.** `Tables` and `Mirror` say what each statement and each write does, as
  functions. The classes (`Database`, `Postgres`, `Sqlite`, `Downloader`, `Resolver`,
  `Consumer`, `Backfill`, `Fts`) follow the program's loops and early returns, and each
  method is proved equal to its function. The theorems are about the functions, over every
  run (`Serve.Served`, `History.UpsertAll`).
- **Outcomes in the inputs' own fields.** `Outcomes` and `Completeness` say what an event, a
  file or a served history message leaves in the tables and blobs, in terms of its fields and
  not of the functions that compute it.
- **Inductions are written out.** Every lemma carries `{:induction false}`.
- **A reference without statements.** `Changes` defines what a log of per-message changes
  says (`Latest`, looking back from the end) and the mirror it describes.

| file | content |
|---|---|
| Model, Tables, Mirror | data types, SQL state and statements, what one write does |
| Database, Postgres, Sqlite, Backend | the two stores as classes over one database object |
| Downloader, Resolver, Consumer | file handling, metadata cache, event handling as classes |
| Dispatcher, History | events to actions; what a backfill makes of one message, and how its row compares |
| Serve | runs of the program: deliveries, visits, new processes |
| Safety, Faithful | what holds in every state whatever fails; digests against bytes |
| Changes, Refinement, FileRows | the reference semantics; runs whose writes complete refine it, file rows included |
| Outcomes, Completeness | what an event, a file, a history message leaves; what a successful backfill leaves |
| Agreement, LastWord | what a failing write can touch; one message in a run where anything may fail |
| Fts, SearchRun | the trigger-maintained index, and the index along a run |
| Timestamps, Binary64, FloatTime | the exact and the floating-point converters |
| ResolverMachine | the resolver under interleaving |
| Backfill, Restart | paging; aborted and repeated runs |
| Witnesses | runs in which a claim made for the program fails |

## Where the code differs from what is claimed for it

- *Redelivery converges* (README.md:21-22). There is no version guard, so an old event that
  arrives again after a newer one for its message wins (`Refinement.ServedStaleWins`, and
  `Witnesses.StaleRun` for one run). `Refinement.ServedRedeliveryExact` says exactly when one
  more delivery changes nothing; a duplicate that arrives before the next event for its
  message changes nothing (`Refinement.ServedDuplicateIsHarmless`).
- *Backfill is idempotent against what was captured live* (internal/backfill/backfill.go:3).
  It converts timestamps through a float64. SQLite keeps nanoseconds, and most instants move,
  by up to 120 ns (`History.BackfillRewritesRow` gives the exact condition). Postgres keeps
  microseconds, and an instant stays or moves back by exactly one
  (`History.PgBackfillRewritesRow`). `Witnesses.RewritingRun` is a run that shows both.
- *A stored file's digest is that of its bytes.* A process that stops between the upload and
  the row update leaves new bytes under an old digest (`Witnesses.CrashAfterPutTears`, and
  `Witnesses.TearingRun` for two deliveries from the empty store); `Faithful.FetchFaithfulExact`
  gives the exact condition.
- *Collecting the candidates collects every orphan.* Only if no file row lacked an edge
  before (`Tables.DeleteIsSweep`, `Tables.ReconcileIsSweep`). A row is left without an edge
  exactly when a new file is recorded and its link does not take effect
  (`Safety.AttachOrphansExact`, and `Witnesses.OrphaningRun` for one run).
- *`ORDER BY ts` is chronological* (README.md:216-220). Exactly for timestamps that agree in
  both widths and have at most nine fraction digits (`Timestamps.OrderByTsExact`).

## Model

| member | source | states |
|---|---|---|
| Tables.CollectIsSweep | internal/sqlitestore/sqlitestore.go:144-179 | examining only the candidate rows leaves the files a full mark and sweep leaves, if and only if every row outside the candidates has an edge |
| Tables.DeleteIsSweep | internal/sqlitestore/sqlitestore.go:103-140 | deleting a message collects exactly what a sweep of all files would, if and only if no file row lacked an edge before |
| Tables.ReconcileIsSweep | internal/store/store.go:209-289 | the same for reconciling a message's edges with a keep list |
| Tables.DeleteCollectsExactly | internal/store/store.go:83-143 | a delete removes the message and its edges, exactly the files whose last edge that was, hands over exactly their URIs, and leaves every other row as it is, shared files included |
| Tables.ReconcileCollectsExactly | internal/store/store.go:216-275 | a reconcile removes exactly the edges not kept and the files that lose their last edge by it, hands over exactly their URIs, and touches nothing else |
| Database.DeleteBlobs | internal/sqlitestore/sqlitestore.go:181-191 | all handed-over blobs are deleted, or those before the first deletion that failed (and perhaps that one), or none when no blob store is configured |
| Database.Bucket.Put | internal/blobstore/local.go:17-35 | success stores the whole body under the key's URI; a failure may leave the old object or any partial content |
| Postgres.PgStore.DeleteMessage | internal/store/store.go:83-158 | for any answers, status, tables and blobs after the transaction and the deletions that follow its commit are those of the specification, including rollback on every failing statement |
| Postgres.PgStore.CollectAny | internal/store/store.go:113-143 | the orphan query, its row loop and the delete remove exactly the candidates without edges and return their URIs; the delete never meets its foreign key |
| Postgres.PgStore.ReconcileMessageFiles | internal/store/store.go:209-289 | the transaction with `NOT (file_id = ANY(keep))`, with its early commit, does what the specification says for any keep list and answers |
| Sqlite.InPlaceholders | internal/sqlitestore/helpers.go:32-44 | as many marks as arguments, the arguments in order, and a well-formed list unless there are no ids |
| Sqlite.KeyClause | internal/sqlitestore/files.go:64-65 | the two positional parameters select exactly the message's edges |
| Sqlite.NotKeptClause | internal/sqlitestore/files.go:66-70 | with the NOT IN term every mark meets its own argument and the clause selects exactly the edges whose file is not kept, repeated ids included |
| Sqlite.SqliteStore.DeleteMessage | internal/sqlitestore/sqlitestore.go:103-140 | equal to the same specification as the Postgres delete, for any answers |
| Sqlite.SqliteStore.GcOrphans | internal/sqlitestore/sqlitestore.go:144-179 | removes exactly the candidates without edges and returns their URIs; runs no statement for an empty candidate list and never builds an empty IN list |
| Sqlite.SqliteStore.ReconcileMessageFiles | internal/sqlitestore/files.go:57-104 | equal to the same specification as the Postgres reconcile, for every keep list, empty and repeated ids included |
| Backend.ReconcileOnBoth | README.md:225-227 | from equal worlds with equal answers both backends return the same status and leave the same tables; the same blobs too whenever the call succeeds, and unless a deletion after the commit failed, when at most the handed-over blobs differ |
| Backend.DeleteOnBoth | README.md:225-227 | the same for deleting a message |
| Downloader.Downloader.Handle | internal/files/download.go:37-62 | builds the keep list from the refs, reconciles, and handles the refs in order up to the first error, as the specification says |
| Downloader.Downloader.HandleRef | internal/files/download.go:45-60 | records, links, then skips or downloads one ref; errors of recording a state are dropped |
| Downloader.ReconfigureExact | internal/files/download.go:64-75 | a changed configuration downloads every file the old one did if and only if its size limit and its type list are at least as wide (no limit and an empty list being the widest), or the old one allowed no type at all |
| Outcomes.RefOutcome | internal/files/download.go:45-99 | an external file, one without a URL, over a positive limit or of an unlisted type is marked skipped and no blob changes, whatever a server would answer; any other one answered 200 and uploaded is stored with exactly those bytes; any other answer marks it failed; what is not stored keeps its address and digest |
| Outcomes.RecordedRow | internal/store/store.go:160-180 | recording a new file makes a pending row without an address; recording a known one only renews its metadata |
| Outcomes.FileErrorsDropped | internal/files/download.go:53-59 | once a file is recorded and linked nothing but a crash stops the batch |
| Outcomes.BatchStops | internal/files/download.go:45-60 | a batch that ends with an error ended at the first file that could not be recorded or linked |
| Downloader.Downloader.Download | internal/files/download.go:77-99 | only a 200 response is uploaded, and the row is marked stored, with the digest of the uploaded bytes, only after the upload |
| Resolver.Resolver.EnsureChannel | internal/resolver/resolver.go:61-75 | no call for a seen or empty id; otherwise an upsert, a stub when the API failed; marked seen only after the upsert succeeded |
| Resolver.Resolver.EnsureUser | internal/resolver/resolver.go:80-95 | the same for users |
| Outcomes.UserOutcome | internal/resolver/resolver.go:77-95 | after success a user with an id has a row; an unseen user's row is what the API said, or a stub when it failed, and it is remembered only after the upsert succeeded |
| Outcomes.ChannelOutcome | internal/resolver/resolver.go:57-75 | the same for channels |
| Outcomes.EnsuredInOrder | internal/consumer/apply.go:32-38 | a message is written only after its channel and then its author are ensured |
| Outcomes.ServedAuthorsKnown | internal/consumer/apply.go:26-44 | in every run, whatever fails, the author of every stored message has a row |
| ResolverMachine.ResolverSound | internal/resolver/resolver.go:45-95 | for any number of interleaved callers, failures and restarts: seen ids have rows, a caller past an ensure call with a non-empty id has its row, a saved message has its channel's row, and only a message without a channel can be refused by the foreign key |
| ResolverMachine.NextKeepsInv | internal/resolver/resolver.go:45-95 | every single step of every caller keeps that invariant |
| ResolverMachine.AloneIsSequential | internal/resolver/resolver.go:61-75 | a caller nobody interrupts does what the sequential specification of EnsureChannel says |
| ResolverMachine.UserAloneIsSequential | internal/resolver/resolver.go:80-95 | the same for EnsureUser |
| ResolverMachine.RestartForgets | README.md:21-22 | a new process keeps the rows and forgets what was seen |
| Consumer.Apply | internal/consumer/apply.go:26-44 | channel row, user row, then message row, stopping at the first error; deletes and skips as specified |
| Consumer.Consumer.HandleMessage | internal/consumer/consumer.go:38-66 | dispatch, apply, then files; a file error is only logged, a write error is counted and returned, a success counts one event |
| Consumer.Consumer.RunLoop | internal/consumer/consumer.go:92-145 | handling events one after the other leads to the world the run specification describes, up to the event at which the process stops |
| Outcomes.ChannelAllowedExact | internal/dispatch/dispatch.go:26-34 | the denylist always wins; an empty allowlist allows every other channel, a non-empty one those it lists |
| Outcomes.SubtypePersistedExact | internal/dispatch/dispatch.go:36-50 | a normal message always persists; otherwise the skip list wins, then a non-empty persist list decides |
| Outcomes.OtherChannelsSkipped | internal/dispatch/dispatch.go:143-145 | an event on a channel that is not allowed is skipped |
| Outcomes.DeletionDispatched | internal/dispatch/dispatch.go:147-153 | a deletion on an allowed channel deletes the message it names |
| Outcomes.EditDispatched | internal/dispatch/dispatch.go:155-167 | an edit is skipped, rejected or stored by its inner message: its subtype, its timestamp, its fields |
| Outcomes.MessageDispatched | internal/dispatch/dispatch.go:126-179 | any other event likewise by itself, thread and author included |
| Outcomes.DeletedIsGone | internal/consumer/consumer.go:38-66 | in any run, after a deletion handled without an error the message it names has no row and no edge, the files nothing else carries and their blobs are gone, and everything else stays |
| Outcomes.EditIsStored | internal/consumer/consumer.go:68-91 | in any run, after a stored edit the row carries the inner message's fields and the edges are exactly the inner message's files, whatever the payload says; without a file handler they stay |
| Outcomes.MessageIsStored | internal/consumer/consumer.go:68-91 | in any run, after any other stored event the row carries its fields and the edges are exactly the payload's files; without a payload that parses, or a file handler, they stay |
| Outcomes.RejectedOrSkipped | internal/consumer/consumer.go:40-44 | a rejected event is an error and changes nothing; a skipped one changes nothing |
| Outcomes.FileErrorIsLogged | internal/consumer/consumer.go:59-62 | a failing file handler is not an error of the event |
| Outcomes.NewProcess | README.md:21-22 | a new process finds the world as it was left and remembers nothing |
| Tables.ForeignKeysExact | internal/store/migrations/0002_files.sql:20-26 | a statement on messages, edges or files is refused if and only if its result would break a foreign key |
| Safety.DeleteKeepsSafe | internal/store/store.go:145-156 | whatever fails in a delete or in the deletions after its commit, no dangling edge, a present blob for every recorded URI, and no recorded URI on a file without edges |
| Safety.ReconcileKeepsSafe | internal/store/store.go:277-287 | the same for a reconcile |
| Safety.DownloadKeepsSafe | internal/files/download.go:77-99 | the same for a download, with any partial upload |
| Safety.HandleRefKeepsSafe | internal/files/download.go:45-60 | the same for handling one ref, and nothing already recorded is lost |
| Safety.HandleKeepsSafe | internal/files/download.go:37-62 | the same for a whole message: rows that stay keep their URI, the URIs of rows that go were handed to the deletion, and files the message still carries are never among them |
| Safety.AttachOrphansExact | internal/files/download.go:46-52 | recording and linking a file leaves a row without an edge if and only if the row is new and recorded and the link did not take effect |
| Safety.WriteKeepsSound | internal/consumer/apply.go:26-44 | one write under any faults keeps all of that and the soundness of the resolver's caches |
| Safety.CrashBetweenRefs | internal/files/download.go:45-60 | the world between two refs is the final world of the run that crashes there |
| Serve.ServedIsSound | internal/consumer/consumer.go:38-66 | every state of every run, deliveries and backfill visits mixed, with any failures, crashes and new processes, is safe and its caches are sound |
| Serve.AddressesRemembered | internal/store/store.go:160-203 | after any run, one more turn of any kind keeps each recorded URI on its row, or collects the row and hands its URI to the deletion |
| Serve.ServedTableFits | internal/dispatch/dispatch.go:26-50 | while nothing is backfilled every stored row has an allowed channel, a persisted subtype, its own timestamp as key and that timestamp's exact instant |
| Serve.ServedTablePlaced | internal/backfill/backfill.go:106-142 | in every run every stored row has a persisted subtype, its own timestamp as key and that timestamp's instant as one of the two converters reads it |
| Changes.ReplayMirrors | README.md:6-9 | applying changes in order yields exactly the mirror of what the last change to each message says |
| Changes.OrderAcrossMessagesIsIrrelevant | README.md:21-22 | logs with the same changes per message, in the same order, give the same mirror, even when messages share files |
| Changes.RedeliveryExact | README.md:21-22 | one more change leaves the mirror as it was if and only if it repeats what its message says or later changes hide it |
| Changes.EarlyDuplicateIsHarmless | README.md:21-22 | a duplicate before the next change to its message changes nothing |
| Refinement.ApplyEffect | internal/consumer/apply.go:26-44 | when applying an action succeeds it makes exactly its change, whatever it met; a message without a channel is refused and changes nothing |
| Refinement.HandleEffect | internal/files/download.go:37-62 | when it returns without an error the message's edges are exactly its refs, whatever downloads did; files it dropped go, files it names are no longer left over, other messages' edges stay |
| Refinement.WriteMakesChange | internal/consumer/consumer.go:47-64 | a write that completes makes exactly the change of the reference semantics |
| Refinement.QuietRunCompletes | internal/consumer/consumer.go:38-66 | in a run without database faults every write completes, however downloads end and however often the process is replaced |
| Refinement.ServedMirrors | internal/consumer/consumer.go:38-66 | after any run whose writes complete, backfills and new processes included: a message is stored exactly when its last change stored it, with that row; its edges are that change's files; the files table holds exactly the files with an edge |
| Refinement.ServedConverges | README.md:21-22 | two runs that deliver the same changes to each message end with equal rows, edges and files, whatever the order across messages and wherever either was redeployed |
| Refinement.ServedRedeliveryExact | README.md:21-22 | exactly when one more delivered event leaves rows, edges and files as they are without it |
| Refinement.ServedDuplicateIsHarmless | README.md:21-22 | an event delivered twice before the next event for its message ends as if delivered once |
| Refinement.ServedStaleWins | internal/sqlitestore/sqlitestore.go:86-99 | after any run, an older event delivered again after a newer one for its message puts the old row back |
| LastWord.LastWordHolds | internal/consumer/consumer.go:38-66 | in any run, a message's row and edges are exactly what its last change says as soon as the writes to it, from the last that settles it on, completed: whatever failed before, for other messages, or stopped the process |
| LastWord.WriteLeavesOthers | internal/consumer/consumer.go:47-64 | a write to one message, whatever it meets, leaves every other message's row and edges as they are |
| LastWord.CompletedIsHeard | internal/consumer/consumer.go:38-66 | in a run whose writes complete that holds of every message |
| Refinement.ServedBlobsExact | internal/files/download.go:94-98 | if failing uploads leave nothing behind, the blobs present are exactly the recorded URIs |
| FileRows.HandleRefRow | internal/files/download.go:45-60 | handling one ref gives its file's row the ref's metadata and the outcome of its download, and leaves what every other row says |
| FileRows.ServedRowsCurrent | internal/files/download.go:37-62 | after any run without database faults every file row holds the metadata of the last ref that mentioned the file and is stored (with the digest of the last body downloaded), skipped or failed as that ref's download ended; none is pending |
| Faithful.FetchFaithfulExact | internal/files/download.go:53-59 | handling a ref breaks "stored rows have the digest of their bytes" if and only if new bytes with another digest landed in a stored row's blob and no row update took effect |
| Witnesses.CrashAfterPutTears | internal/files/download.go:94-98 | after any run that stored a file, a delivery that uploads other bytes and crashes before the row update leaves a stored row with the wrong digest |
| Witnesses.TearingRun | internal/files/download.go:94-98 | two deliveries of one message from the empty store that end so |
| Witnesses.OrphaningRun | internal/files/download.go:46-52 | one delivery from the empty store whose failed link leaves a row that no delete collects |
| Witnesses.StaleRun | internal/sqlitestore/sqlitestore.go:86-99 | three deliveries after which the older text is stored again |
| Witnesses.RewritingRun | internal/backfill/backfill.go:144-150 | a message captured live and then visited by a backfill: its instant moves by 103 ns in SQLite's column and by one microsecond in Postgres's |
| Faithful.ServedIsFaithful | internal/files/download.go:37-62 | in every run in which landed bytes are followed by a row update that takes effect, whatever else fails, every stored row has the digest of its bytes |
| Fts.PostingsOfRow | internal/sqlitestore/migrations/0001_init.sql:19 | a row's postings of a token are the token's occurrences in its text, and of no other row |
| Fts.RebuiltAt | internal/sqlitestore/migrations/0001_init.sql:19 | the rebuilt index holds each row's token occurrences and nothing else, whatever the order of rebuilding |
| Fts.RebuiltUpdated | internal/sqlitestore/migrations/0001_init.sql:34-37 | replacing a row takes its old postings, all of which are there, and adds the new ones |
| Fts.MatchIsScan | internal/sqlitestore/search.go:15-20 | a one-token match on a current index selects the rowids a scan of the texts selects |
| Fts.UpsertedCurrent | internal/sqlitestore/migrations/0001_init.sql:22-37 | the insert and update triggers keep the index equal to the rebuilt one and never take out a posting that is not there |
| Fts.Messages.Upsert | internal/sqlitestore/sqlitestore.go:86-99 | an insert or conflict update changes the table at its key only, and the triggers keep the index equal to the rebuilt one |
| Fts.Messages.Delete | internal/sqlitestore/migrations/0001_init.sql:27-31 | a delete removes its key only, and the index stays equal to the rebuilt one; the delete command never names a posting that is not there |
| Fts.Messages.Search | internal/sqlitestore/search.go:10-34 | the hits of a one-token search are distinct stored messages with the token, at most the limit (50 when not positive), and all of them when fewer |
| SearchRun.IndexFollowsRun | internal/sqlitestore/migrations/0001_init.sql:19-38 | along any run, with any failures, crashes and redeploys, the index is the one rebuilt from the stored messages; a rolled-back delete takes its trigger's effect back with it |
| SearchRun.MatchFindsServed | internal/sqlitestore/search.go:15-20 | at any point of any run a one-token match finds exactly the stored messages a scan finds |
| Timestamps.TsToTime | internal/dispatch/dispatch.go:52-80 | the padding loop and its two parses compute TimeOf, errors included |
| Timestamps.TimeOfIsExact | internal/dispatch/dispatch.go:52-80 | "s.f" is val(s) seconds and ⌊val(f)·10^9/10^len(f)⌋ nanoseconds, for a fraction of any length |
| Timestamps.TimeOfWhole | internal/dispatch/dispatch.go:52-63 | a whole number of seconds, of either sign, without a dot is that instant |
| Timestamps.TimeOfRejects | internal/dispatch/dispatch.go:60-78 | seconds that do not parse, or a character that is no digit among the fraction's first nine, are an error |
| Timestamps.ParseRender | internal/dispatch/dispatch.go:60 | parsing a number undoes printing it, for exactly the numbers of int64 |
| Timestamps.ParseInt64Rejects | internal/dispatch/dispatch.go:60 | nothing but an optional sign and digits parses |
| Timestamps.UnixExact | internal/dispatch/dispatch.go:79 | carrying keeps the instant and brings the nanoseconds into range |
| Timestamps.LexOrderIsChronological | README.md:216-220 | at one width and at most nine fraction digits, string order is chronological order and equal instants mean equal strings |
| Timestamps.SortsExact | README.md:216-220 | timestamps of one kind sort before those of another exactly when they are earlier, if and only if both have equally many second digits and the second kind has at most nine fraction digits and no more than the first |
| Timestamps.OrderByTsExact | README.md:216-220 | so string order over two kinds is chronological if and only if they agree in both widths and have at most nine fraction digits |
| Binary64.RoundIsNearestEven | internal/backfill/backfill.go:145 | the rounding used is that of section 4.3.1 of IEEE 754-2008: no 53-bit value is nearer, and ties go to the even significand |
| Binary64.RoundExact | internal/backfill/backfill.go:149 | operations whose exact result has 53 bits are exact |
| FloatTime.ParseTsValue | internal/backfill/backfill.go:144-150 | for Slack timestamps the whole float computation yields the same second and the nearest multiple of 2^-22 s, truncated to nanoseconds |
| FloatTime.FloatBound | internal/backfill/backfill.go:144-150 | same second as the exact converter, no carry, at most 120 ns below or 119 ns above; rounding to microseconds recovers the digits |
| FloatTime.AgreeExactly | internal/backfill/backfill.go:144-150 | the two converters agree if and only if m·2^22 mod 10^6 is 0 or at least 995806 |
| FloatTime.FloatKeepsOrder | internal/backfill/backfill.go:144-150 | the float converter keeps the strict order of instants |
| FloatTime.TruncTowardZero | internal/backfill/backfill.go:149 | the conversion to int64 truncates toward zero, and rounding is odd |
| FloatTime.ThreeTenths | internal/backfill/backfill.go:149 | below 2^30 seconds the product with 10^9 is rounded too: "0.3" is 300 million nanoseconds although its float is a little less |
| FloatTime.ParseFloatExact | internal/backfill/backfill.go:145 | a sign in front of a plain decimal is the sign of its rounded value |
| FloatTime.ParseFloatRejects | internal/backfill/backfill.go:145 | nothing but an optional sign, digits and dots parses, and at least one digit is needed |
| History.LiveAndBackfillAgree | internal/backfill/backfill.go:108-142 | the rows built live and by a backfill from one message with Slack timestamps are equal except that the two instants may differ by at most 120 ns |
| History.BackfillRewritesRow | internal/sqlitestore/helpers.go:8-30 | in columns that keep nanoseconds they are equal if and only if both stamps are ones the converters agree on |
| History.MicrosExact | internal/store/migrations/0001_init.sql:25-26 | cut to microseconds, the converters agree if and only if r = m·2^22 mod 10^6 is 0 or above 500000; otherwise the float converter is exactly one microsecond early |
| History.PgBackfillRewritesRow | internal/store/migrations/0001_init.sql:25-26 | so as Postgres keeps them the rows are equal if and only if both stamps are such, and otherwise an instant moves back by exactly one microsecond |
| History.OnlyPostgresKeeps | internal/store/migrations/0001_init.sql:25-26 | the two conditions differ: a stamp that only Postgres keeps |
| Backfill.PagesExact | internal/backfill/backfill.go:51-78 | a cursor chain is exactly the pages served: each but the last has more and names the next, and the last has no more or names none |
| Backfill.PlanMembers | internal/backfill/backfill.go:62-72 | a message is visited if and only if it is on a history page, or on a reply page of a thread whose parent is: a message whose thread_ts is its own ts, or that has replies and no thread_ts |
| Backfill.PlainPlan | internal/backfill/backfill.go:62-72 | without such parents exactly the history is visited, in order |
| Backfill.Backfiller.Upsert | internal/backfill/backfill.go:106-142 | subtypes that are not persisted are passed over, a timestamp that does not parse is an error, otherwise the row and then the files are written under the given channel |
| Backfill.Backfiller.Replies | internal/backfill/backfill.go:81-104 | the reply loop ends; it visits a thread's pages in order, all of them on success, and stops only at a failed call or write |
| Backfill.Backfiller.Messages | internal/backfill/backfill.go:62-72 | each message of a page, followed at once by its thread when it is a root |
| Backfill.Backfiller.Channel | internal/backfill/backfill.go:45-79 | both loops end; on success exactly the plan was visited, in order, after what was visited before; otherwise a prefix of it, because a call or a write failed |
| Backfill.Backfiller.Seed | internal/app/backfill.go:62-67 | the allowlisted channels one after the other, up to the first error: on success exactly the plans of all of them |
| Backfill.RunBackfill | internal/app/backfill.go:21-70 | one run of the command: a new process visits a prefix of the plan and, when it returns without an error, all of it |
| Completeness.SeedsEverything | internal/app/backfill.go:21-70 | when it returns without an error every persisted message the served pages reach, top level or reply, is stored, with the fields and files of a served message with its timestamp |
| Completeness.VisitedIsStored | internal/backfill/backfill.go:106-142 | each persisted visited message is stored as the last visit to it says |
| Outcomes.VisitIsStored | internal/backfill/backfill.go:106-142 | after one successful visit the row carries the message's fields and the edges are exactly its files; without a file handler they stay |
| Outcomes.VisitRefused | internal/backfill/backfill.go:108-115 | a subtype that does not persist is passed over, a timestamp that does not convert is an error |
| Agreement.UpsertAgrees | internal/backfill/backfill.go:106-142 | an upsert that may stop anywhere touches only its own message's row and edges and left-over rows of its own files |
| Restart.FullRunReplays | internal/backfill/backfill.go:45-79 | a run that returns without an error makes exactly the changes of its plan |
| Restart.QuietRunSucceeds | internal/backfill/backfill.go:106-142 | without database faults it fails only at a persisted message without a channel or with a timestamp that does not parse |
| Restart.SeedIsTurns | internal/backfill/backfill.go:45-79 | visiting messages up to the first failure is a run of turns, so everything said of runs holds of a backfill at any point of one |
| Restart.BackfillMirrors | internal/backfill/backfill.go:1-3 | seeding to success over what a run captured leaves the mirror of the changes of that run followed by the visited messages |
| Restart.RestartedRunAgrees | internal/backfill/backfill.go:45-142 | aborted any number of times, anywhere and with any faults, and then run again to success, a backfill leaves the same rows, edges and files as one uninterrupted successful run |
| Restart.ResumeAgrees | internal/app/backfill.go:21-70 | the same of the command: run any number of times, whatever comes of it, and once more to success, against one successful run over the store as it was at first |

## Left out

- Socket Mode, the Web API, HTTP transport, GCS and the file system: each call is an answer; connection state, acknowledgements and logging are not modelled.
- SQL engine internals, migrations, connection pools and Litestream: only the visible statements, keys, cascades and triggers.
- Two writers on one database: with the default isolation level orphan rows are possible, and so is deleting a blob that was stored again meanwhile; all statements about files and blobs are for one writer.
- The `raw` and clock columns (`updated_at`, `created_at`, `downloaded_at`), and the difference between an empty string and NULL in optional text columns.
- JSON: a payload is the message it parses to, or nothing; copying a message's `files` into refs field by field (internal/files/extract.go) is taken as given.
- Full-text ranking, query syntax and real tokenisation: the tokenizer is arbitrary and queries are one token; a failing search query is not modelled. VACUUM, which may renumber implicit rowids, is never run by the program.
- Postgres's generated search column: it is maintained by the engine.
- Binary64.RoundIsNearestEven: overflow and subnormals are not modelled; decimal timestamps do not reach them.
- FloatTime.ParseTsValue: `strconv.ParseFloat` also accepts exponents, hexadecimal, infinities and underscores, which the model rejects; timestamps outside Slack's format are outside the bounds.
- Timestamps.TsToTime: a signed fraction next to the smallest or largest int64 second would wrap; seconds are unbounded here.
- Column precision: the tables hold instants as handed to the driver. SQLite's text keeps nanoseconds; a Postgres TIMESTAMPTZ keeps whole microseconds, and the driver (pgx, which is not part of this model) is taken to cut the rest, as `History.PgRow` does. Instants of six-digit stamps read by the exact converter are whole microseconds.
- The largest rowid: SQLite picks a random unused rowid after 2^63-1.
- The blob key of a file id with path separators or an empty id: the address is taken to be one to one with the id.
- `Backfiller` checks only subtypes, so the allowed-channel statement is about the live consumer; the `oldest` parameter only decides which pages the API serves.
- Backfill.Backfiller.Channel: the cursor chains must be finite; a server that never ends its cursors keeps the program paging.
- Configuration, health endpoint, backend selection, command line: plumbing.
