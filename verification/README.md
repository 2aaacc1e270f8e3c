# MemoryBridge: a verified model

MemoryBridge is a durable-write pipeline. Client hooks write memories into a crash-safe file spool; a daemon delivers
them to a server; the server stores the first write under each idempotency key and stamps it with a rising sequence
number; a worker derives a vector index; archives and exports are the way back. This project models that pipeline in
Dafny and proves what its parts promise, over every run, every input and every crash point.

How the modules follow the program:

- `Records`, `Rows`, `ServerMachine`, `Since`, `Service`: the write request, its id, `put`, `_next_seq` and `since`.
  `ServerMachine` stops at every `await`; the class `Service.MemoryService` is the same code as methods, each moving a
  ghost copy of the machine along.
- `SpoolMachine`, `Protocol`, `Guarantees`: the spool's file operations with a live and an on-disk view of each
  directory, the delivery daemon, the server and a cursor reader as one step system, and what holds over its runs.
- `LocalSpoolFiles`, `Transcript`, `SpoolDaemon`: the spool object, the delivery pass and transcript chunking as code;
  `TranscriptMachine`: the transcript jobs with crashes, power losses and several processes.
- `IndexMachine`, `IndexPass`: `index_pending` as a step system and as a pass.
- `Json`, `Cursor`, `Scan`: JSON text, the opaque cursor, paging over several collections.
- `Fingerprint`, `Export`, `Archive`, `ArchivePower`: the order-independent fingerprint, the JSON-lines export, archives
  with a manifest written last, and what power losses do to them.
- `Sidecar`, `CloudBackup`, `ExternalArchive`: the remote backup and its verifier.
- `Summaries`, `Grouping`, `DailyRun`: rendering and merging, grouping conversations, the daily run on top of the
  protocol.
- `Basics`, `Sorting`, `Runs`: strings, stable sorting, induction along runs.

SHA-256, uuid5, redaction, the embedder and the language model are parameters; where an argument needs a hash not to
collide, the lemma asks that of the texts at hand only. Times are integers. Qdrant is a map from ordered ids to payloads
whose calls may fail with or without effect but never take effect after they ended. One server process writes the raw
collection, as ARCHITECTURE.md:27 states. Lemmas carry `{:induction false}` so that every induction is the one written down.

What the code does differently from what one might expect, each stated as a theorem:

- `LocalSpool.put` returns early when the file is already in pending, without repeating the directory fsync
  (memorybridge/spool.py:59-60). If an earlier process died between its rename and its fsync, a power loss after that
  return loses the request, and a daily summary can be recorded as completed and be lost. Process crashes alone lose
  nothing.
- The fallback of `since` sorts only the points it fetched, so beyond its cap it can skip records for good.
- A transcript job with an over-long session, agent, device or file name is queued without complaint, but the request for
  its first chunk is invalid; the pydantic error is a ValueError that memorybridge/spool.py:172-184 does not catch, so it
  leaves `sync_once` before anything is pushed, on every pass.
- `finish_transcript_job` removes whatever file has the job's name. A hook that refreshes the job while the daemon puts an
  earlier reading loses its refresh, and with it the lines written in between unless another hook follows.
- The merge loop of `summarize_conversation` ends for completions of up to a given length exactly if two of that length
  fit together, labels and separators included; otherwise a model can keep it asking for ever.
- A conversation key does not tell all sessions apart, but the id of its summary does: two conversations with the same key
  and different sessions can leave two summaries of one key.
- Rendering drops a message's text when `max_chars` does not exceed its prefix.
- `group_messages` depends on input order when two groups share their key, as a session called `day` does with messages
  without a session, and when a group mixes empty and missing sessions.
- Pruning archives counts manifests that are not yet on disk. Two overlapping runs with a retention of one can lose every
  archive to a power loss; one run at a time cannot.
- A snapshot whose name contains whitespace or starts with a star gets a sidecar that the verifier rejects.
- A spool file that is not UTF-8 raises out of `sync_once`; a transcript job that is not UTF-8 is quarantined.

## Model

| member | source | states |
|---|---|---|
| `Records.IdIs` | memorybridge/models.py:33-39 | a request without a key is stored under its nonce, any other under the uuid5 of the prefix and its four identity fields, joined by the unit separator |
| `Records.IdIdentifies` | memorybridge/models.py:33-39 | two keyed requests whose agent, device and session hold no unit separator get the same id if and only if agent, device, session and key agree, unless uuid5 collides on these two |
| `Records.IdentifiedExactly` | memorybridge/models.py:33-39 | a valid keyed request is identified by its id (every valid keyed request with that id, short of a uuid5 collision, has the same agent, device, session and key) if and only if no other choice of three separators in its material gives fields within their bounds |
| `Records.IdentifiedAmongSeparableExactly` | memorybridge/models.py:24-39 | among valid requests without separators in agent, device and session it is identified if and only if it has none there itself, or splitting its material at the first three separators leaves no agent or too long a key |
| `Records.PlainIsIdentified` | memorybridge/models.py:24-39 | a valid request without a separator in any of the four fields is identified among all valid ones |
| `Records.IdsCanCollide` | memorybridge/models.py:36-38 | two requests with different keys that share an id whatever uuid5 is: a concrete pair |
| `ServerMachine.ServeKeepsInv` | memorybridge/service.py:51-92 | every await-level step of `put` and `_next_seq` (failed calls with or without effect, lost answers, restarts, a clock running back) keeps: serials distinct and at most the persisted clock, one request behind each record, no record lost or rewritten, every newly visible serial above every visible one |
| `SpoolMachine.AdvanceKeepsInv` | memorybridge/spool.py:55-70 | every single file operation of `put`, delivery and receipt pruning, and every power loss, keeps: spool files whole and filed under their key, receipts only for stored records |
| `SpoolMachine.SecureIsStable` | memorybridge/spool.py:119-131 | a name that is both live and on disk in pending, or whose record is stored, stays so through every step, power losses included |
| `Protocol.NextKeepsInv` | memorybridge/spool.py:188-221 | spool, server and cursor reader together keep their joint invariant under every interleaving, including answers that never arrive |
| `Guarantees.FirstWriterWins` | memorybridge/service.py:70-92 | over whole runs a stored record stays, its written-once content never changes, and later records have higher serials |
| `Guarantees.OneRecordPerIdentity` | memorybridge/models.py:33-39 | in every reachable state each keyed identity has at most one raw record, and field by field (content, hash, agent, device, session, role, project, metadata, times) it says what the request that wrote it says |
| `Guarantees.ReturnedPutIsNeverLost` | memorybridge/spool.py:55-70 | a `put` that returned after its fsync, on a receipt, or on an entry already on disk is pending or stored in every later state of every run, unless another spooled key has the same SHA-256 |
| `Guarantees.KeptForeverExactly` | memorybridge/spool.py:55-70 | a name is kept in every future if and only if it is live and on disk, or its record is stored |
| `Guarantees.EarlyReturnIsSafeExactly` | memorybridge/spool.py:59-60 | the early return on an existing pending file is safe against power loss if and only if that directory entry has reached the disk or the record is stored |
| `Guarantees.ReturnedPutCanBeLost` | memorybridge/spool.py:59-60 | a run in which a returned `put` is lost: the early return does not repeat the directory fsync |
| `Guarantees.ProcessCrashesLoseNothing` | memorybridge/spool.py:55-70 | with process crashes but no power loss nothing that was returned is ever lost, unless another spooled key has the same SHA-256 |
| `Guarantees.SpooledFilesAreNeverCondemned` | memorybridge/spool.py:198-205 | what `put` wrote is never taken for malformed data |
| `Guarantees.ReaderMissesNothing` | memorybridge/service.py:148-167 | a consumer on the ordered path has been given exactly the records up to its cursor, each once, in serial order; what becomes visible later lies above the cursor |
| `Service.MemoryService.constructor` | memorybridge/service.py:19-35 | an empty store agrees with the initial server machine |
| `Service.MemoryService.Restart` | memorybridge/service.py:35 | only the in-memory clock is lost, and the invariant holds |
| `Service.MemoryService.NextSeq` | memorybridge/service.py:51-63 | the exact new in-memory and persisted clocks and the answer, for every way the two calls can end: the clock if it is ahead of the last serial, else the next number |
| `Service.MemoryService.Put` | memorybridge/service.py:65-92 | a stored id is a duplicate and nothing changes; otherwise the exact new raw collection and clocks for every way the calls can end, with a serial above all others; a new record is pending and each of its fields is the one of the request, and no other record changes; each step is one of the server machine |
| `Service.PutTwice` | memorybridge/service.py:65-92 | a repeated keyed request adds at most one record, changes none, and is answered as a duplicate of the first, even if that answer was lost |
| `Service.MemoryService.Since` | memorybridge/service.py:148-167 | the reply to every request; on the ordered path, or with few enough matches, it is a read step of the protocol |
| `Since.SinceReadsInOrder` | memorybridge/service.py:148-167 | either path returns the first `limit` records above the cursor in serial order, the last serial as cursor, and `has_more` exactly when records were held back |
| `Since.FallbackServesExactly` | memorybridge/service.py:158-162 | the fallback answers like the ordered scroll for every order of ids if and only if the matches number at most max(10 limit, 1000) |
| `Since.FallbackCanSkip` | memorybridge/service.py:158-162 | above that number it can pass over the oldest record and return a cursor beyond it |
| `IndexMachine.NextKeepsInv` | memorybridge/service.py:356-407 | every step of any number of indexing passes beside the server, with calls failing with or without effect, keeps raw records and vectors in agreement |
| `IndexMachine.IndexedRecordsAreFound` | memorybridge/service.py:385-404 | in every reachable state a record marked indexed has a point with its id and content in the collection it names, embedded from its content, or from its dump if that is blank |
| `IndexMachine.HitsAreRawRecords` | memorybridge/service.py:293-305 | every point of a vector collection is a raw record with the same content |
| `IndexMachine.GenerationNames` | memorybridge/config.py:116-118 | two generation names coincide if and only if model and dimension do, unless the two models collide in ten digits of SHA-256 |
| `IndexMachine.GenerationsArePure` | memorybridge/config.py:116-118 | two stored vectors lie in the same collection if and only if they come from the same model in the same dimension, unless the two models collide in ten digits of SHA-256 |
| `IndexMachine.MarkedModelIsTheVectors` | memorybridge/service.py:386-391 | the model a record is marked with is the one its vector comes from, unless the two collide in ten digits |
| `IndexMachine.IndexedForever` | memorybridge/service.py:398-402 | a record never goes back to pending |
| `IndexPass.CollectPending` | memorybridge/service.py:361-377 | the paging loop takes exactly the first `limit` pending points in scroll order, however many indexed pages lie before them |
| `IndexPass.PassShrinksBacklog` | memorybridge/service.py:378-407 | a pass lowers the pending count by exactly the points whose status was written, at least the number reported as indexed |
| `IndexPass.HandleItemAgrees` | memorybridge/service.py:381-404 | whatever fails for one point, records and vectors agree afterwards and only index fields changed |
| `IndexPass.NamesMakeRoom` | memorybridge/service.py:383-386 | an upsert is never refused for its dimension, since a generation name fixes it |
| `IndexPass.PassesDrain` | memorybridge/service.py:356-407 | all-successful passes take the next `limit` points off the front, so enough of them leave nothing pending |
| `Service.MemoryService.IndexPending` | memorybridge/service.py:356-407 | the loop does exactly that pass; every point handled is counted once; raw and vectors still agree; every changed status names the time, the model and the generation of model and dimension |
| `Cursor.CursorRoundTrip` | memorybridge/service.py:112-123 | decoding an encoded cursor gives back the collection index and the null, integer or string offset |
| `Cursor.NoCursorIsTheStart` | memorybridge/service.py:118-121 | no cursor, like an empty one, is the start of the first collection |
| `Cursor.LastValueCounts` | memorybridge/service.py:122 | where an object repeats a name, the last value counts |
| `Cursor.PaddingIsRestored` | memorybridge/service.py:116-121 | stripping and recomputing the base64url padding is the identity |
| `Cursor.Base64RoundTrip` | memorybridge/service.py:115-122 | base64url decoding inverts encoding for every byte string |
| `Scan.Scan` | memorybridge/service.py:125-146 | the loop over the collections, which may vanish between the existence check and the scroll, computes exactly the specified page |
| `Scan.PageSize` | memorybridge/service.py:131-146 | no page exceeds the limit and only the last is shorter |
| `Scan.PageCovers` | memorybridge/service.py:131-146 | a page holds keys from its start up to the next position, strictly ascending by collection and id |
| `Scan.WalkReturnsEachPointOnce` | memorybridge/service.py:125-146 | following `next_cursor` from the start, while others write, returns ascending keys without repetition, each seen in the store, and returns exactly once every collection and id that is present throughout, even if its payload changes meanwhile |
| `Scan.WalksAreShort` | memorybridge/service.py:125-146 | while all keys come from a finite set the number of requests is bounded by its size over the limit |
| `Json.StringRoundTrip` | memorybridge/snapshot.py:64 | a quoted string reads back, escapes and surrogate pairs included, with ensure_ascii on and off |
| `Json.EscapeExactly` | memorybridge/snapshot.py:64 | exactly the printable characters other than quote and backslash, and in ASCII mode no others, stand for themselves |
| `Json.LoadsPrinted` | memorybridge/snapshot.py:64 | parsing the compact print of a value without repeated field names gives the value back |
| `Export.ExportLines` | memorybridge/snapshot.py:128-146 | paging by 500 writes one line for each point in scroll order, each an object with exactly its id and its payload (the empty object for a payload without truth value), and computes the fingerprint of exactly these records |
| `Export.FingerprintExport` | memorybridge/snapshot.py:94-104 | reading line by line adds up every non-blank line and fails on a line that is no object |
| `Export.PrintedIsPlain` | memorybridge/snapshot.py:140-141 | no printed record contains a control character, so none contains a line break |
| `Export.FileLinesOfExport` | memorybridge/snapshot.py:99-101 | reading the file by lines gives the lines that were written |
| `Export.AnyBreakEnds` | memorybridge/snapshot.py:99-101 | `\n`, `\r` and `\r\n` each end a line, which is read as if it ended with `\n` |
| `Export.SortKeysTwice` | memorybridge/snapshot.py:63-64 | sorting keys at every level is idempotent |
| `Export.SortKeysExactly` | memorybridge/snapshot.py:63-64 | two values are sorted to the same one if and only if they are alike up to field order at every level |
| `Export.SortKeysIsAlike` | memorybridge/snapshot.py:63-64 | sorting keys gives a value that is alike and has the fields of every object in the order of their keys |
| `Export.CanonicalAgain` | memorybridge/snapshot.py:60-64 | the canonical text of a record read back is the text it was read from |
| `Export.ExportReadsBack` | memorybridge/snapshot.py:94-146 | re-reading the export gives for each point an object with exactly its id and its payload up to field order, and the fingerprint of the file is the one computed while writing |
| `Export.FieldOrderIsImmaterial` | memorybridge/snapshot.py:60-64 | objects that differ only in field order have the same canonical form |
| `Export.CanonicalIdentifies` | memorybridge/snapshot.py:60-64 | canonical texts are equal if and only if the ids are, and the payloads are alike up to field order at every level or both without truth value |
| `Fingerprint.OrderIndependent` | memorybridge/snapshot.py:71-75 | count, sum and xor depend on the multiset of digests alone |
| `Fingerprint.PrintIs` | memorybridge/snapshot.py:67-75 | the count is the number of digests, the sum is theirs in 256 bits, and a digit of the xor is set if and only if an odd number of digests have it |
| `Fingerprint.OneAlteredIsDetected` | memorybridge/snapshot.py:71-75 | with one digest replaced the fingerprint is the same if and only if the digest is |
| `Export.FingerprintIgnoresOrder` | memorybridge/snapshot.py:117-126 | the fingerprint of a collection does not depend on scroll order |
| `Export.AlteredRecordShows` | memorybridge/snapshot.py:60-91 | replacing a record leaves the fingerprint unchanged if and only if id and payload are the same record, unless the digests of these two canonical texts collide |
| `Export.MissingRecordShows` | memorybridge/snapshot.py:60-91 | removing or inserting one record always changes it |
| `Archive.NextKeepsInv` | memorybridge/snapshot.py:148-230 | every single file operation of concurrent archive runs, cut short anywhere, keeps every archive that no run has condemned complete and its snapshot and export durable, and the newest one uncondemned |
| `Archive.LatestRestores` | memorybridge/snapshot.py:243-301 | in every reachable folder the manifest picked by `latest_manifest` verifies, and a forced restore yields exactly what the snapshot was taken of, never a mismatch |
| `Archive.FreshArchiveVerifies` | memorybridge/snapshot.py:208-211 | the check right after publication passes |
| `Archive.InstantsAreFixed` | memorybridge/snapshot.py:152-163 | what a snapshot was taken of never changes afterwards |
| `Archive.Prune` | memorybridge/snapshot.py:214-230 | an undisturbed prune leaves exactly min(listed, max(1, retention)) archives with all their files, each newer than any that is gone, and changes nothing when no more are listed than are kept |
| `Archive.ListsSparesNewest` | memorybridge/snapshot.py:214-218 | a run condemns no archive while at most max(1, retention) are listed, and otherwise all but that many, each older than those |
| `ArchivePower.LatestSurvivesPowerLoss` | memorybridge/snapshot.py:148-230 | with any crashes and power losses as well, as long as each pruning keeps at least one manifest that is on disk, the latest archive verifies and restores in every reachable folder |
| `ArchivePower.ArchiveStays` | memorybridge/snapshot.py:204-230 | in such runs there is always an archive to restore once a manifest has reached the disk uncondemned |
| `ArchivePower.PruningIsSafeExactly` | memorybridge/snapshot.py:214-230 | pruning after a listing is safe in every future if and only if nothing is to be pruned or one of the manifests to be kept is on disk |
| `ArchivePower.OneRunAtATimeSurvives` | memorybridge/snapshot.py:204-230 | with one archive run at a time that is always so: the latest archive restores after any crashes and power losses |
| `ArchivePower.OverlappingRunsCanLoseAll` | memorybridge/snapshot.py:204-230 | two overlapping runs with a retention of one: the first counts the unsynced manifest of the second, prunes its own archive, and after a power loss the latest archive does not verify |
| `CloudBackup.NextKeepsInv` | scripts/memorybridge_cloud_backup.py:282-386 | every effect of a run, failed with or without effect, torn or cut short, keeps `latest.json` naming a stored snapshot with matching digests and sidecar |
| `CloudBackup.PointerIsAlwaysGood` | scripts/memorybridge_cloud_backup.py:346-350 | at every point of every sequence of runs `latest.json`, if there, names a snapshot that exists, has the recorded digest and a matching sidecar |
| `CloudBackup.PointerStays` | scripts/memorybridge_cloud_backup.py:349-350 | once there is a `latest.json` there always is one |
| `CloudBackup.DeletedOnlyOncePublished` | scripts/memorybridge_cloud_backup.py:352-357 | Qdrant's own snapshot is deleted only while `latest.json` names a stored copy with its announced checksum |
| `CloudBackup.PointedIsNeverRemoved` | scripts/memorybridge_cloud_backup.py:246-279 | no step removes the snapshot or sidecar that `latest.json` names |
| `Sidecar.SidecarReadsBackExactly` | memorybridge/deployment.py:98-105 | the sidecar line reads back as its digest if and only if the snapshot name is non-empty, without whitespace, and does not start with a star |
| `Sidecar.MalformedIsRefused` | memorybridge/deployment.py:98-105 | a sidecar is read if and only if it has two words or more, starts with 64 hexadecimal digits and ends with the name, stars apart; what is read is the digest in lower case |
| `ExternalArchive.VerifyArchive` | memorybridge/deployment.py:232-320 | the verifier reports no problem if and only if digests, sizes, sidecars and inventory of the archive are sound |
| `ExternalArchive.CheckInventory` | memorybridge/deployment.py:283-320 | the loops over snapshots and sidecars report nothing if and only if they pair up and match |
| `ExternalArchive.RemoteArchive.BackupCollection` | scripts/memorybridge_cloud_backup.py:282-386 | a run that meets no failure ends with paired snapshots and sidecars, at most the retained number, nothing for the verifier to report, and Qdrant's copy gone |
| `ExternalArchive.RemoteArchive.Prune` | scripts/memorybridge_cloud_backup.py:246-279 | pruning keeps the pairing and what was just published, and leaves min(present, max(1, retention)) snapshots, none older than one that is gone |
| `Summaries.RenderMessageChunks` | memorybridge/daily_summary.py:419-446 | the two loops compute the specified blocks and greedy groups |
| `Summaries.ChunksAreBounded` | memorybridge/daily_summary.py:434-446 | each chunk has at most `max_chars` characters, separators included, and the chunks hold all blocks in order |
| `Summaries.TextSurvivesExactly` | memorybridge/daily_summary.py:423-433 | the redacted text of a message, without the space around it, survives rendering if and only if it is blank or `max_chars` exceeds its prefix |
| `Summaries.BlocksCarryPrefix` | memorybridge/daily_summary.py:424-431 | with room behind it every block starts with the time, the role and a colon |
| `Summaries.SegmentsAreShort` | memorybridge/daily_summary.py:429-431 | a block holds at most `max_message_chars` characters of text, or one |
| `Summaries.MergeLoop` | memorybridge/daily_summary.py:584-611 | the merge loop, cut off after a number of rounds, comes to the specified outcome |
| `Summaries.SummarizeConversation` | memorybridge/daily_summary.py:551-613 | the result is the answer to the last of its calls, all calls before were answered and not blank, and their number is one for each chunk, one for each merged batch and a final one (one in all for a single chunk); it fails only where a call was not answered |
| `Summaries.CompactIs` | memorybridge/daily_summary.py:581 | partial summaries enter the first round redacted, without the space around them, and cut to 240 characters |
| `Summaries.MergeEnds` | memorybridge/daily_summary.py:584-611 | the loop ends, with fewer than twice as many calls as values, when every completion with its label and separator is at most half of the limit |
| `Summaries.MergeEndsExactly` | memorybridge/daily_summary.py:584-611 | for completions of at most a given positive length the loop ends for every model and every start if and only if two values of that length fit together under the first two labels |
| `Summaries.SummaryCallsAreLinear` | memorybridge/daily_summary.py:551-613 | such a summary of n chunks comes, or fails, within n rounds, after at most 3n - 3 calls |
| `Summaries.BatchesFit` | memorybridge/daily_summary.py:585-598 | batches stay within the limit and keep the order of the values |
| `Summaries.JoinOfMore` | memorybridge/daily_summary.py:440-445 | the blocks of a chunk and of a batch are separated by an empty line |
| `Summaries.RoundShrinksExactly` | memorybridge/daily_summary.py:585-600 | a round makes progress if and only if two neighbouring blocks fit together |
| `Summaries.LongRepliesNeverMerge` | memorybridge/daily_summary.py:584-611 | with non-blank completions so long that two do not fit together, labels and separators included, the loop is unfinished after any number of rounds, with all values left |
| `Summaries.SummaryNeverComes` | memorybridge/daily_summary.py:551-613 | a concrete conversation (one user message of two characters, rendered in chunks of 18) and a model for which `summarize_conversation` is still running after any number of rounds |
| `Grouping.DedupeMessages` | memorybridge/daily_summary.py:376-393 | the loop with its set of seen refs computes the specified list |
| `Grouping.DedupeKeepsExactly` | memorybridge/daily_summary.py:376-393 | the result is sorted, has unique refs, and holds exactly the messages that are no stored copies of file messages |
| `Grouping.CopiesAreDroppedExactly` | memorybridge/daily_summary.py:384-391 | a stored message is dropped if and only if a Codex file has one of the same role and text |
| `Grouping.EveryTextSurvives` | memorybridge/daily_summary.py:376-393 | every role and text survives |
| `Grouping.DedupeIsIdempotent` | memorybridge/daily_summary.py:376-393 | deduplicating twice changes nothing |
| `Grouping.GroupMessages` | memorybridge/daily_summary.py:396-409 | the dictionary of groups, deduplicated and sorted by key, is the specified list |
| `Grouping.GroupsPartition` | memorybridge/daily_summary.py:396-408 | each group holds the messages of its agent and session, without copies, and no others |
| `Grouping.GroupingIgnoresOrderExactly` | memorybridge/daily_summary.py:396-409 | the result does not depend on input order if and only if the messages of each group have one session (an empty one and none fall into one group) and no two groups share their `Conversation.key` |
| `Grouping.ReadableKeysDiffer` | memorybridge/daily_summary.py:89-91 | keys differ when no agent contains a colon and no session is called `day` |
| `Grouping.DayIsAmbiguous` | memorybridge/daily_summary.py:89-91 | a session called `day` next to messages of the same agent without a session makes the result depend on input order |
| `DailyRun.NextKeepsDaily` | memorybridge/daily_summary.py:716-773 | every step of the run on top of the protocol, with crashes, power losses and a lost state file, keeps recorded keys backed by returned puts |
| `DailyRun.OneSummaryPerKeyExactly` | memorybridge/daily_summary.py:729-760 | over all runs, whatever is cut short, repeated or forgotten, a set of conversations leaves at most one stored summary for each key if and only if those with the same key have the same session (unless uuid5 collides on their ids) |
| `DailyRun.BothAreStored` | memorybridge/daily_summary.py:729-760 | the failing run: of two conversations whose summaries have different ids, such as two with one key and different sessions, the first is delivered but not recorded when the power fails, and the next run stores the second |
| `DailyRun.RecordedWasSpooled` | memorybridge/daily_summary.py:760-768 | nothing is recorded before its `put` has returned |
| `DailyRun.RecordedIsKept` | memorybridge/daily_summary.py:760-768 | a recorded summary whose `put` returned with its entry on disk or delivered is pending or stored for good |
| `DailyRun.SummaryRecordSays` | memorybridge/daily_summary.py:729-760 | the stored record of a summary has the heading with day, agent and message count before the summary, the session, the agent, role and project of the summarizer, and a key of the day and 32 digits of the hash |
| `DailyRun.RecordedIsNotRepeated` | memorybridge/daily_summary.py:722-727 | a key recorded on disk is never summarized again unless the state file is lost |
| `DailyRun.RecordedSummaryCanBeLost` | memorybridge/daily_summary.py:716-768 | a run in which a recorded summary is lost, because `put` returned early on an entry that was not on disk |
| `LocalSpoolFiles.DrainIsPrefix` | memorybridge/spool.py:192-212 | a pass pushes exactly the valid files of the processed prefix in queue order; malformed files do not stop it; it stops at the first unreadable, undecodable or refused file |
| `LocalSpoolFiles.DrainConserves` | memorybridge/spool.py:108-131 | what was pending is still pending, or pushed with its receipt in sent, or pushed with its receipt pruned among a full thousand newer ones, or quarantined; earlier receipts stay or are pruned by that rule; only files that were pending enter failed, which loses nothing; no name ends up in both pending and sent |
| `LocalSpoolFiles.HealthyPassDrains` | memorybridge/spool.py:192-212 | if nothing stops the pass, every valid file is delivered and every malformed one quarantined |
| `LocalSpoolFiles.RetainedAreNewest` | memorybridge/spool.py:126-131 | the receipts kept are the newest thousand |
| `SpoolDaemon.LocalSpool.Put` | memorybridge/spool.py:55-70 | the exact new pending directory: unchanged when the name is pending or delivered |
| `SpoolDaemon.LocalSpool.MarkSent` | memorybridge/spool.py:119-131 | the exact directories after delivery and receipt pruning |
| `SpoolDaemon.LocalSpool.Quarantine` | memorybridge/spool.py:108-117 | the file moves to a name that was free |
| `LocalSpoolFiles.QuarantineIsFresh` | memorybridge/spool.py:108-117 | with fresh nonces the quarantine name is not taken |
| `SpoolDaemon.LocalSpool.QueueTranscript` | memorybridge/spool.py:75-97 | the exact new jobs directory: the newest reference replaces an older one of the same key |
| `SpoolDaemon.LocalSpool.SpoolTranscript` | memorybridge/spool.py:236-273 | unless it raises, each chunk is in pending under its own name, with the text of the chunk, the agent, device and session of the job, the role and the three metadata entries, except where that name was taken before or recurs; their number is returned; at the first chunk whose request is invalid it raises and leaves those before it spooled |
| `SpoolDaemon.LocalSpool.MaterializeTranscriptJobs` | memorybridge/spool.py:152-185 | exactly the specified handling of the oldest eight jobs, with its counters, or the error that a chunk with an invalid request raises |
| `SpoolDaemon.LocalSpool.SyncOnce` | memorybridge/spool.py:188-221 | the whole pass: materialized jobs, then the delivery loop over the oldest items, with its counters; an error in materialization ends it before anything is pushed |
| `SpoolDaemon.SyncOnceConserves` | memorybridge/spool.py:188-221 | a pass conserves all files, over the transcript jobs and the delivery loop; a pass that raises in a transcript job pushes nothing |
| `SpoolDaemon.HandledJobsSettle` | memorybridge/spool.py:152-185 | each transcript job before the one that raises, or each one, ends retained, quarantined or materialized, and then each chunk of its transcript is in pending with its text and the fields of the job, except where its name was taken before the pass or recurs in it; the one that raises stays queued |
| `SpoolDaemon.TranscriptIsSpooled` | memorybridge/spool.py:236-273 | with all names new and no collision of SHA-256 on the keys, the contents of the spooled files in order join to the transcript |
| `SpoolDaemon.MaterializationRaisesExactly` | memorybridge/spool.py:152-185 | materialization looks at the eight oldest jobs and raises if and only if one of them can be read with its transcript but has a chunk that makes no valid request, and such a job stays queued |
| `SpoolDaemon.OneBadJobBlocksAll` | memorybridge/spool.py:165-185 | a job as queued for a session id of 257 characters makes every pass raise with nothing pushed and nothing changed |
| `TranscriptMachine.HeldForeverExactly` | memorybridge/spool.py:165-185 | in every future, over crashes and power losses, a job is queued or all chunks of one reading that includes the text written so far were put, if and only if the job is live and on disk and no process that read an earlier text can still finish, or such a reading was put already |
| `TranscriptMachine.QueuedOrPut` | memorybridge/spool.py:152-185 | once its directory entry was synced a job is queued, or all chunks of one reading of its transcript were put, whatever dies in between |
| `TranscriptMachine.RefreshCanBeLost` | memorybridge/spool.py:75-106 | a run in which a refreshed and synced job is removed by a process that read the transcript before it grew: no job is left, and only the chunks of the early text were put |
| `SpoolDaemon.OldestComeFirst` | memorybridge/spool.py:72-73 | a pass takes as many items as allowed, or all, oldest first, and leaves none behind that is older |
| `SpoolDaemon.GrownTranscriptReusesNames` | memorybridge/spool.py:259-272 | re-spooling a grown transcript reuses the spool names of all but the last old chunk |
| `Transcript.MakeChunks` | memorybridge/spool.py:246-258 | the loop over the lines computes the specified packing |
| `Transcript.LinesAreLines` | memorybridge/spool.py:250 | a line holds no line break but the one it ends with, only the last need not end with one, and `\r\n` is never split |
| `Transcript.BytesAreEncoded` | memorybridge/spool.py:251 | the size that is counted is the length of the UTF-8 encoding |
| `Transcript.ChunksPartitionText` | memorybridge/spool.py:250-258 | the chunks join to the text, and each fits the bound or is a single line |
| `Transcript.PackIsOptimal` | memorybridge/spool.py:250-258 | no contiguous packing of the lines under the bound uses fewer chunks |
| `Transcript.AppendKeepsChunks` | memorybridge/spool.py:250-258 | appending text leaves every chunk but the last as it was at its index |

## Left out

- HTTP, MCP and Qdrant transport, docker and subprocess calls, gzip and tar parsing: only the calls' effects are kept.
- memorybridge/server.py, memorybridge/chatgpt_ui.py, memorybridge/cli.py, memorybridge/auth.py and the host adapters: registration, user interface and argument plumbing.
- memorybridge/lexical.py and the vector, lexical and raw search ladder: floating-point scores and short branches.
- Credential patterns: redaction is an arbitrary function on strings.
- File modes, mount lookup, schedule and age reporting in memorybridge/deployment.py: environment reads and single checks.
- Floating-point payloads, lone surrogates and time-zone parsing: outside the JSON and time domains of the model.
- A request without an idempotency key: the file name of its spool file is not part of its payload, so it is delivered at least once; the protocol covers keyed requests.
- `ack`: it overwrites, so nothing is stated about consumer cursors stored that way.
- A directory fsync that is reached is taken to succeed; a failing one is ignored by the source.
- SpoolMachine.AdvanceKeepsInv: file contents are whole or torn, not bytes, and the temporary files of a process are its own.
- Cursor.CursorRoundTrip: says nothing of cursors that no reply contained; for such a cursor DecodeCursor can refuse what Python accepts (a negative index, foreign characters that base64 skips, an index given as a string).
- Scan.WalksAreShort: needs a finite set of points that the walk can meet; with points inserted ahead of it forever no walk ends.
- Since.SinceReadsInOrder: beyond the fallback's cap the statement is false, as Since.FallbackCanSkip shows.
- IndexMachine.IndexedRecordsAreFound: no deletion or restore from outside.
- Archive.NextKeepsInv: a snapshot name gives six distinct file names; a file and its directory are synced in one step.
- Archive.Prune: what Qdrant keeps of its own snapshots is not modelled.
- Archive.LatestRestores: restoring an image gives back the points it was taken of.
- CloudBackup.NextKeepsInv: modification times rise with each upload, and snapshot names are never reused.
- ExternalArchive.RemoteArchive.BackupCollection: starts from paired snapshots and sidecars and a new name; uploads write what they were given.
- ExternalArchive.VerifyArchive: the tar structure of a snapshot is not looked at.
- Summaries.MergeLoop: the number of rounds is a parameter, since the loop need not end.
- Grouping.GroupingIgnoresOrderExactly: assumes that a source ref determines its message.
- LocalSpoolFiles.DrainConserves: a receipt that the push of the same name overwrites (both can be there after a power loss) is not followed further, and exclusivity is stated for directories in which no name was in both before.
- SpoolDaemon.LocalSpool.SpoolTranscript: file operations of `put` succeed; an OSError there retains the job, as TranscriptMachine has it.
- TranscriptMachine.HeldForeverExactly: transcripts only grow, a job name stands for one transcript, and `put` is one step whose durability is the subject of Guarantees.
- Transcript.MakeChunks: works on the decoded text; a multi-byte character cut at the end of a growing file is not modelled.
- `sync_daemon` and the worker's timer: arithmetic around the steps modelled here.
