# Models and proofs

Dafny models of six components and proofs about them. `dafny verify dfyconfig.toml` checks everything.

**Per-name lock** (`LockProtocol.dfy`, `LockRemoval.dfy`). Openers flock a file and re-check that the path still names its inode;
removers unlink only while they own that flock. Every system call is one action of one caller; any number of
callers interleave and crash, and inode numbers are recycled as soon as nothing refers to them. The lock sweep's row
check and the lock-free insert of the SessionStart hook are actions too. What each action takes away and what it
leaves is stated beside the safety of the whole.

**Run lifecycle** (`RunLifecycle.dfy`, `RunCompletion.dfy`). Ensure, close, reaper rows, the pending sweep and the lock-free end hook as
lists of store operations over one shared store; each operation is an atomic conditional update, any operation may
fail and any process may die. The invariant carries what each lock holder knows about its session's runs and shows
that the lock-free processes cannot take it away. What each program left undisturbed has done when it ends is proved
from any reachable state.

**Session rollup** (`UnionFind.dfy`, `MergeSession.dfy`, `MergeSessions.dfy`, `TranscriptFold.dfy`,
`FoldThenMerge.dfy`, `OutputTally.dfy`, `Sessions.dfy`, `SharedUuids.dfy`, on `Tokens.dfy`, `SliceSort.dfy`, `SessionTypes.dfy`,
`Wrappers.dfy`). The
parent slice rewritten in place, the first-occurrence maps, the fold of a file and the merge of a session, against
connected components and against definitions on all lines at once. A sort promises only sorted order and the same
elements, and maps yield their keys in any order.

**Rollup cache** (`Varints.dfy`, `CacheFormat.dfy`, `CacheEncoder.dfy`, `CacheDecoder.dfy`, `CacheFile.dfy`,
`SummaryCache.dfy`). The encoder with its flushes and running checksum, the decoder with its sticky error, and cached
calls over a changing tree with checkpoints, kills, failing writes and other callers. The checksum is a fold of an
arbitrary step function.

**Change feed** (`FeedLog.dfy`, `FeedIter.dfy`, `FeedServer.dfy`). A log that grows, and a request answered from the
part committed by then; the iterator's paging, resets and memory, against the log without pages; and the daemon's
numbering of records and resets and its reads, which keep the promise the iterator relies on.

**Source scheduler** (`SourceScheduler.dfy`), **line splitter** (`LineBuffer.dfy`), **reaper and capacity**
(`Reap.dfy`). Each is the program's state with its methods, against a definition without timers, chunks or sort order.

**Exporter** (`Metrics.dfy`, `Analyze.dfy`, `Samples.dfy`, `Stranded.dfy`, `Collector.dfy`, `Scrapes.dfy`). From beads
to samples to the rendered families, over every reachable collector state and every history of pass runs; what a scrape
holds is read off the history.

## Where a promise needs a condition

- The lock sweep can unlink the lock file of an id that has a row, because the SessionStart hook inserts without the
  lock; it can exactly when such an insert comes between its row check and its unlink.
- One set of seen uuids serves user turns and id-less assistant lines, so a user turn is lost when its uuid came first
  on such a line, and such a line's turn and tokens when its uuid came first on a user turn. Nothing else is lost: what
  is counted and what is dropped add up to what there is.
- The cache's encoder writes any number of uuid-less user turns; its decoder refuses more than 2^31 - 1, and with one
  such entry the whole file.
- A cached call equals an uncached one unless a cached file with an unchanged size and time can no longer be opened.
  The comment on SessionsWithOptions says both that the results are equal and that permissions are not looked at.
- The comment on FeedIter.Cursor promises that resuming skips nothing. Resets with no record between them share a
  sequence number, and a request skips what has its cursor's own number: the second reset when a page is cut between
  the two, when a caller resumes between them, or when it is committed after an answer that already gave that number
  as the head. An entry is skipped in no other case, and no record ever is.
- The comment on refresh in source.ts says that a hidden polled source remembers a forced refresh. It does unless a
  fetch is in flight; then the code drops the request, and in no other case is a forced refresh dropped.
- The comment on utf8Len says UTF-8 byte length. A high surrogate and whatever follows it count as four bytes, so
  some ill-formed strings are counted short.

## Model

| member | source | states |
|---|---|---|
| LockProtocol.RunKeepsInv | packages/ccpool/internal/lock/flock.go:60-78 | Whatever any number of lockers, removers and crashes do, the flock table names exactly the descriptors that own a lock, and whoever re-checked its path still has that path. |
| LockProtocol.HeldLockIsExclusive | packages/ccpool/internal/lock/flock.go:60-78 | At most one caller is past its inode re-check for a name; its path names the inode it locked, and no remover of that name is past its own re-check. |
| LockProtocol.HeldPathSurvivesEveryStep | packages/ccpool/internal/lock/flock.go:122-163 | No single system call of anyone else takes a held lock's path away or points it elsewhere. |
| LockProtocol.UnlinkIsSafe | packages/ccpool/internal/lock/flock.go:122-163 | At the moment of an unlink the remover owns the flock of the very inode it unlinks and nobody holds that name. |
| LockRemoval.UnlinkRemoves | packages/ccpool/internal/lock/flock.go:152-160 | The unlink takes its own name away, and leaves every other name, every lock owner, every row and every other caller as they were. |
| LockRemoval.OnlyUnlinkRemoves | packages/ccpool/internal/lock/flock.go:60-163 | No other call takes a name away, only an open gives one, and nothing points a name elsewhere. |
| LockRemoval.FlocksChangeHands | packages/ccpool/internal/lock/flock.go:60-163 | A flock is taken only free, by the caller that asks for the inode it opened, and kept until that caller releases, retries, closes or dies. |
| LockRemoval.OnlyRowActionsChangeRows | packages/ccpool/internal/session/lockgc.go:97-109 | Rows change only by inserts and deletes, each of one name. |
| LockRemoval.RemovalAlone | packages/ccpool/internal/lock/flock.go:122-163 | A remover left alone ends with the name gone if the file was there, free, aged and without a row, and otherwise with the file kept; nothing else differs. |
| LockProtocol.StaleDescriptorStaysStale | packages/ccpool/internal/lock/flock.go:68-76 | No single system call of anyone makes the path name a replaced descriptor's inode again, recycled inode numbers included, nor makes that descriptor's caller hold the lock. |
| LockProtocol.StaleForGood | packages/ccpool/internal/lock/flock.go:68-76 | Over any continuation in which the caller keeps that descriptor open it never passes the re-check, so retrying is the only way on. |
| LockProtocol.RetryThenLocks | packages/ccpool/internal/lock/flock.go:65-77 | Left alone, a caller in the retry branch gets the live file's lock in three system calls. |
| LockRemoval.LockingAlone | packages/ccpool/internal/lock/flock.go:60-112 | An idle caller left alone with a name nobody holds comes to hold it in four calls, its path naming the inode it locked, and once it releases it only the file it may have made is left. |
| LockProtocol.EveryRetryHasItsUnlink | packages/ccpool/internal/lock/flock.go:65-77 | A caller goes round the loop at most once per unlink in the history and failed stat of its own: it cannot spin otherwise. |
| LockProtocol.GcRemovesRowedLockIffHookSlipped | packages/ccpool/internal/session/lockgc.go:97-109 | The sweep is about to unlink the lock file of an id with a session row if and only if a lock-free insert came after its row check. |
| LockProtocol.GcIsSafeWithoutHookInserts | packages/ccpool/internal/session/lockgc.go:82-126 | With rows inserted only under the lock, the sweep never unlinks the lock file of an id with a row, nor one with an opener in its critical section. |
| LockProtocol.HookInsertCanSlip | packages/ccpool/cmd/ccpool/hook.go:166-168 | A concrete history in which the SessionStart hook's lock-free insert makes the sweep unlink the lock file of an id that has a row. |
| RunLifecycle.RunKeepsInv | packages/ccpool/internal/session/delete.go:18-31 | Every action of every interleaving of resumes, closes, reaper rows, sweeps, the lock-free end hook and deaths keeps the store, the emission log and what each lock holder relies on consistent. |
| RunLifecycle.RunsAreExclusiveAndEmittedOnce | packages/ccpool/internal/session/delete.go:41-57 | A session never has two open runs; each run is emitted at most once and only after it ended; the reader's zero test and the store's NULL test agree. |
| RunLifecycle.NoRunIsLost | packages/ccpool/internal/session/delete.go:98-152 | Every run ever opened is still stored or was emitted, whoever ended it and whoever deleted its session. |
| RunLifecycle.DeleteIsLast | packages/ccpool/internal/session/delete.go:98-152 | When a session row is about to go, every run of the session has ended and been emitted, with the lock-free hook and sweep still at work. |
| RunLifecycle.EmissionsRecordTheEnd | packages/ccpool/internal/session/delete.go:33-57 | What an emission recorded is the run's final reason and duration, although it was read before the claim. |
| RunLifecycle.CloseStampsBeforeTeardown | packages/ccpool/internal/session/cancel_close.go:187-234 | From the teardown on, an open run already carries the close's reason, so the end hook the teardown provokes ends it with that reason. |
| RunLifecycle.EndsAreFinalAndPendingWins | packages/ccpool/internal/store/runs.go:62-97 | Over every continuation a finalized run keeps its end, and a pending reason wins whichever process finalizes the run, unless a later close stamped another. |
| RunLifecycle.ActionKeepsEnds | packages/ccpool/cmd/ccpool/hook.go:378-397 | One action of anyone, the lock-free end hook included, keeps ended runs and pending reasons. |
| RunLifecycle.RunIdsAreNotReused | packages/ccpool/internal/store/runs.go:48-60 | A deleted run's id never comes back. |
| RunLifecycle.CloseIsCareful | packages/ccpool/internal/session/cancel_close.go:187-234 | The order of a close's store and terminal effects never does a step without what the step relies on. |
| RunLifecycle.KnowledgeStays | packages/ccpool/cmd/ccpool/hook.go:391-396 | What a lock holder knows about its session's runs survives every operation of the lock-free processes and of other sessions' holders. |
| RunLifecycle.LockedStepStaysSound | packages/ccpool/internal/session/session.go:538-557 | After each of its own operations a lock holder knows what its remaining operations need. |
| RunCompletion.Undisturbed | packages/ccpool/internal/session/session.go:397-523 | From any reachable state, a process begun and left undisturbed until it is done leaves exactly what its program alone leaves. |
| RunCompletion.EnsureOpensOneRun | packages/ccpool/internal/session/session.go:538-546 | After an Ensure that launched, new or resumed, the session has a row and exactly one open run, a new one, started at the clock of one of the steps, with nothing said of its end. |
| RunCompletion.ResumeCompletes | packages/ccpool/internal/session/session.go:444-480 | A resume ends a run left open at the last activity as exited, opens one at the clock of its last step but one, touches the row, and emits nothing. |
| RunCompletion.NewCompletes | packages/ccpool/internal/session/session.go:480-519 | A launch without a transcript deletes what there was, each run of it ended and emitted once, inserts the row and opens the run at the last step's clock. |
| RunCompletion.ReuseCompletes | packages/ccpool/internal/session/session.go:397-418 | A live session is reused and nothing changes. |
| RunCompletion.CloseCompletes | packages/ccpool/internal/session/cancel_close.go:187-234 | A close with a valid reason stamps the row, ends the open run at the clock of its end step with that reason, and emits each ended run of the session that was not emitted, once; with another reason, or without a row, it is refused and nothing changes. |
| RunCompletion.PurgeCompletes | packages/ccpool/internal/session/cancel_close.go:187-234 | After a purge neither the row nor a run of the session is left, and each run of it that was not emitted is, once. |
| RunCompletion.ClosedRunIs | packages/ccpool/internal/session/delete.go:33-57 | The run that was open when a close began ends with the close's reason, source and clock and has exactly one emission, with that reason and its duration. |
| RunCompletion.EndHookCompletes | packages/ccpool/cmd/ccpool/hook.go:378-397 | The end hook ends the open run at its clock, a pending reason kept, and does nothing else. |
| RunCompletion.SweepCompletes | packages/ccpool/internal/session/delete.go:116-130 | After a sweep no ended run is left unemitted, and each that was is emitted once. |
| RunCompletion.ReapDeadCompletes | packages/ccpool/internal/session/reap.go:430-490 | A dead row is kept with its run ended, or deleted with every run emitted; a live, young or missing one is left alone. |
| RunCompletion.ReapCloseCompletes | packages/ccpool/internal/session/reap.go:229-249 | A row re-read under its lock is closed if it still qualifies and left alone if not. |
| RunCompletion.StartHookOnlyAddsARow | packages/ccpool/cmd/ccpool/hook.go:162-168 | The start hook adds the row if it is missing and touches nothing else. |
| RunCompletion.ActivityHookOnlyTouches | packages/ccpool/cmd/ccpool/hook.go:190-196 | Any other hook moves the last activity of a row that is there and touches neither its close reason, nor another row, nor a run. |
| UnionFind.Forest.constructor | packages/claude-transcript/sessions.go:170-173 | Every element starts as its own root. |
| UnionFind.Forest.Find | packages/claude-transcript/sessions.go:174-180 | Following parents ends, returns the root of the element's class and leaves the classes alone while it halves the path in place. |
| UnionFind.Forest.Union | packages/claude-transcript/sessions.go:181-186 | The class of the second element is absorbed by that of the first and no other class changes. |
| MergeSessions.Join | packages/claude-transcript/sessions.go:188-208 | Although only first-seen files are united, two files end with one root exactly when a chain of equal ids or shared event uuids connects them. |
| MergeSessions.WalkKeepsRoot | packages/claude-transcript/sessions.go:188-208 | Along any chain of linked files the root does not change. |
| MergeSessions.Group | packages/claude-transcript/sessions.go:209-213 | Each group holds, in file order, exactly the files with its root. |
| MergeSessions.SessionIdsDiffer | packages/claude-transcript/sessions.go:227-232 | Two different sessions never share a session id, so the final sort has no ties. |
| MergeSessions.MergeSessions | packages/claude-transcript/sessions.go:164-235 | The result holds exactly the records of the connected components, strictly ascending by start and id, whose start is not before the one bound and is before the other. |
| MergeSessions.RollupIsByStart | packages/claude-transcript/sessions.go:215-234 | Every reported record starts at or after the lower bound, if there is one, and before the upper, every session whose record does is reported, and the earlier come first, those that start together by the first character in which their ids differ. |
| MergeSessions.StartIsLeast | packages/claude-transcript/sessions.go:584-599 | A session starts when the first of its files does. |
| MergeSessions.RollupIsUnique | packages/claude-transcript/sessions.go:215-234 | The same files give one result, whatever the order of files, map iteration or equal elements of a sort. |
| MergeSession.MembersAreOrdered | packages/claude-transcript/sessions.go:585-593 | Files with different paths never compare equal in the member sort. |
| MergeSession.MergeSession | packages/claude-transcript/sessions.go:584-672 | The record is the fold of the members in their sorted order: first-occurrence counts under one set of seen uuids and one aggregate per message id. |
| MergeSession.AddUserTurns | packages/claude-transcript/sessions.go:638-642 | Counts the user turns whose uuid no earlier event had. |
| MergeSession.AddIdLessEvents | packages/claude-transcript/sessions.go:655-663 | Turns and tokens of id-less lines whose uuid no earlier event had. |
| MergeSession.AddMessageTokens | packages/claude-transcript/sessions.go:665-670 | The pass over the message ids gives the same turns and per-model sums in any order. |
| TranscriptFold.CanonicalId | packages/claude-transcript/sessions.go:477-488 | The most frequent session id, the smaller of equally frequent ones, else the file name, whatever order the map yields. |
| TranscriptFold.CanonicalIsUnique | packages/claude-transcript/sessions.go:477-488 | That rule leaves one choice. |
| TranscriptFold.Fold.FoldLine | packages/claude-transcript/sessions.go:490-563 | Folding a line keeps every field equal to what the lines so far contribute. |
| TranscriptFold.AggregatedNext | packages/claude-transcript/sessions.go:545-561 | Updating an id's entry in place, or appending it, is aggregating all its lines in first-seen order. |
| TranscriptFold.Summarize | packages/claude-transcript/sessions.go:452-475 | A summary exactly when some line is dated, and then the summary the lines define. |
| TranscriptFold.SummaryIsUnique | packages/claude-transcript/sessions.go:452-488 | The same lines give one summary, whatever order the maps of the fold yield. |
| TranscriptFold.PartsConcat | packages/claude-transcript/sessions.go:490-563 | What two runs of lines contribute together is what each contributes. |
| TranscriptFold.EarliestIs | packages/claude-transcript/sessions.go:494-502 | The reported start is one of the dates, and none is before it. |
| TranscriptFold.TurnsAreTyped | packages/claude-transcript/sessions.go:518-526 | The user turns, with a uuid or without, are as many as the lines a user wrote outside any sidechain, that are not meta and whose message has text. |
| TranscriptFold.EntriesAre | packages/claude-transcript/sessions.go:528-561 | Exactly the assistant lines with a message id say something of it: the model, the tokens, and whether the line is outside any sidechain. |
| TranscriptFold.IdLessAre | packages/claude-transcript/sessions.go:528-547 | Exactly the assistant lines without a message id stand for themselves, with no tokens when there is no message. |
| TranscriptFold.FirstNamesWin | packages/claude-transcript/sessions.go:510-515 | The directory and branch are those of the first lines that name one. |
| TranscriptFold.LastModelWins | packages/claude-transcript/sessions.go:540-542 | The model is that of the last assistant line that names one which is no placeholder. |
| FoldThenMerge.AggregateMeans | packages/claude-transcript/sessions.go:35-41 | An id's aggregate is at least every line's value per category, names whether some line is no sidechain's, and has a model if any line names one. |
| FoldThenMerge.AggregateIsAttained | packages/claude-transcript/sessions.go:35-41 | Each category's value is some line's, or zero: it is the maximum. |
| FoldThenMerge.LastNamedModelWins | packages/claude-transcript/sessions.go:545-561 | The last line of an id that names a model gives the aggregate its model. |
| FoldThenMerge.FoldKeepsAggregates | packages/claude-transcript/sessions.go:545-561 | A file's folded entries say of every message id what its lines say. |
| FoldThenMerge.FoldThenMergeIsDirect | packages/claude-transcript/sessions.go:584-672 | With one event per uuid, folding files alone and merging them gives the times, names, turns and tokens defined directly on all their lines. |
| FoldThenMerge.UserTurnsExactly | packages/claude-transcript/sessions.go:603-642 | User turns are counted once each if and only if no user turn's uuid was used first by an assistant line without a message id. |
| OutputTally.TokensCountEachOnce | packages/claude-transcript/sessions.go:665-671 | A record's token total counts every message id and every distinct id-less event once, however the models split them. |
| OutputTally.Tally.Add | packages/claude-transcript/tokens.go:59-71 | The tally keeps the largest output per message id, at least zero, and adds up lines without one. |
| OutputTally.Tally.Total | packages/claude-transcript/tokens.go:74-80 | The total over the map in any order is one count per message id and one per id-less line. |
| OutputTally.OutputTokens | packages/claude-transcript/tokens.go:20-49 | Only assistant lines count. |
| OutputTally.OneFileAgreesWithTally | packages/claude-transcript/tokens.go:51-80 | For one dated file whose events have distinct uuids the two implementations of the rule agree on output tokens. |
| Sessions.Rollup | packages/claude-transcript/sessions.go:147-160 | The call without a cache: files without a dated event are dropped and the result is the rollup of the rest, every record of it within the bounds. |
| Sessions.RecordIsDirect | packages/claude-transcript/sessions.go:164-235 | Each reported record is the direct reading of all lines of its connected component. |
| Sessions.RollupIsDirect | packages/claude-transcript/sessions.go:147-235 | End to end: with one event per uuid the call reports, strictly ascending, exactly the direct readings of the sessions that begin in range. |
| Sessions.RollupIsByEarliestDate | packages/claude-transcript/sessions.go:215-222 | Whatever uuids the lines share, every reported record starts at the earliest date of all lines of its session, that date is within the bounds, and every session whose earliest date is within them is reported. |
| SharedUuids.UserTurnCanBeLost | packages/claude-transcript/sessions.go:603-663 | Two files of one session with one user turn between them, whose record reports none. |
| SharedUuids.AssistantTurnCanBeLost | packages/claude-transcript/sessions.go:603-663 | The same lines in the other order: an assistant turn and its tokens that the record does not report. |
| SharedUuids.AssistantTurnsExactly | packages/claude-transcript/sessions.go:638-671 | The turns counted and those of the id-less lines dropped are all there are; the count is exact if and only if every dropped line is a sidechain's, and none is dropped if and only if no id-less line's uuid came first on a user turn. |
| SharedUuids.TokensConserved | packages/claude-transcript/sessions.go:638-671 | Of every model, the record's tokens and those of the dropped lines are the direct tokens. |
| SharedUuids.TokensExactly | packages/claude-transcript/sessions.go:638-671 | The record's tokens by model are the direct ones if the dropped lines have none, and only then unless a line reports negative tokens. |
| Varints.PutThenGet | packages/claude-transcript/sessions_cache.go:321-321 | A 64-bit uvarint reads back, with the bytes after it. |
| Varints.UvarintFits | packages/claude-transcript/sessions_cache.go:486-497 | On any bytes, a uvarint that reads has at most 64 bits and its bytes were there. |
| Varints.PutThenGetSigned | packages/claude-transcript/sessions_cache.go:322-322 | A signed varint reads back. |
| CacheFormat.SummaryRoundTrip | packages/claude-transcript/sessions_cache.go:359-421 | A summary reads back, all but the path, exactly when its uuid-less user turns fit 31 bits; else reading fails. |
| CacheFormat.ModelRoundTrip | packages/claude-transcript/sessions_cache.go:366-385 | A model reads back through its index in the local table. |
| CacheFormat.EntriesRoundTrip | packages/claude-transcript/sessions_cache.go:280-290 | The counted entries read back exactly when each does. |
| CacheEncoder.ChecksumOfBoth | packages/claude-transcript/sessions_cache.go:297-297 | The running checksum does not see where the buffer was split. |
| CacheEncoder.Encoder.Flush | packages/claude-transcript/sessions_cache.go:293-302 | A flush moves the buffer to the writer and into the checksum, or fails having written a part; the content is untouched. |
| CacheEncoder.Encoder.Finish | packages/claude-transcript/sessions_cache.go:310-319 | A finished file is everything appended and its checksum; a failed one is a prefix of that. |
| CacheEncoder.Encoder.Summary | packages/claude-transcript/sessions_cache.go:358-421 | The bytes appended for a summary, wherever the flushes in between fall. |
| CacheEncoder.IndexModels | packages/claude-transcript/sessions_cache.go:366-381 | The index built in place is the position in the distinct non-empty models in first-seen order. |
| CacheEncoder.InOrderIsUnique | packages/claude-transcript/sessions_cache.go:268-272 | A map has one sorted sequence of entries, so the file does not depend on map order. |
| CacheEncoder.Encode | packages/claude-transcript/sessions_cache.go:267-285 | The writer gets exactly the file's bytes, whatever the flush threshold, or a prefix when it fails. |
| CacheDecoder.Decoder.Count | packages/claude-transcript/sessions_cache.go:548-558 | A count is never more than the bytes left can hold. |
| CacheDecoder.Decoder.Hashes | packages/claude-transcript/sessions_cache.go:572-583 | The unchecked loop reads only bytes that are there and returns at most one hash per eight bytes left. |
| CacheDecoder.Decoder.Msgs | packages/claude-transcript/sessions_cache.go:621-637 | At most one message entry per fourteen bytes left, and what the format says of the bytes. |
| CacheDecoder.Decoder.NoIds | packages/claude-transcript/sessions_cache.go:638-654 | At most one id-less event per six bytes left, and what the format says of the bytes. |
| CacheDecoder.Decoder.Summary | packages/claude-transcript/sessions_cache.go:601-656 | The sticky error stands exactly when the bytes are no summary. |
| CacheFile.Entries | packages/claude-transcript/sessions_cache.go:440-461 | The loop over the entries stops at the first that does not parse or repeats a name, exactly when the whole list is refused. |
| CacheFile.Decode | packages/claude-transcript/sessions_cache.go:426-468 | On any bytes it ends with the first thing wrong, or with the entries when every byte was used and no name repeats, at most one per four bytes. |
| CacheFile.RoundTrip | packages/claude-transcript/sessions_cache.go:267-468 | Decoding a written file gives back all entries if and only if every entry's uuid-less user turns fit 31 bits; otherwise the whole file is refused. |
| CacheFile.CrowdedIsRefused | packages/claude-transcript/sessions_cache.go:612-618 | A cache with one entry of 2^31 uuid-less user turns, which is written like any other and refused whole. |
| CacheFile.OtherVersionIsTold | packages/claude-transcript/sessions_cache.go:435-437 | A file of another version is told from a corrupt one. |
| CacheFile.OtherTreeIsTold | packages/claude-transcript/sessions_cache.go:438-440 | A file of another projects directory is told from a corrupt one. |
| SummaryCache.CachedIsUncached | packages/claude-transcript/sessions_cache.go:131-191 | With an honest cache a call returns the uncached result if and only if no entry in use belongs to a file that can no longer be opened. |
| SummaryCache.UnreadableIsAnswered | packages/claude-transcript/sessions_cache.go:143-157 | A cached file whose permission was taken away: the cached call reports it, the uncached one does not. |
| SummaryCache.WrittenLoads | packages/claude-transcript/sessions_cache.go:205-245 | A written cache loads as its entries, or as nothing. |
| SummaryCache.Cache.Survey | packages/claude-transcript/sessions_cache.go:143-161 | Each listed file is a hit with its entry and result, a miss left to read, or gone. |
| SummaryCache.Cache.Read | packages/claude-transcript/sessions_cache.go:171-188 | Misses read in any completion order, with checkpoints, end settled; wherever the call is killed the cache file is honest. |
| SummaryCache.Cache.Checkpoint | packages/claude-transcript/sessions_cache.go:174-188 | When a checkpoint is due and nothing disturbs it the file holds exactly the entries; otherwise, or when the write fails, the file is as it was and the entries stay unsaved. |
| SummaryCache.Cache.Summarize | packages/claude-transcript/sessions_cache.go:131-191 | A call returns what its loaded entries allow; an undisturbed one leaves all its entries in the file. |
| SummaryCache.NextCallReadsNothing | packages/claude-transcript/sessions_cache.go:143-163 | After an undisturbed call the next one over the same tree finds every file it could read. |
| SummaryCache.Run | packages/claude-transcript/sessions.go:147-160 | Over any sequence of calls, trees, kills and other callers, every completed call returns the uncached result, exactly unless an entry outlived its file's permissions. |
| FeedLog.Ask | packages/pg-claude-code-recorder/client/feed.go:123-146 | A request moves past entries without answering them exactly when they have its cursor's own number; after it the new cursor divides the log at the new place. |
| FeedLog.HandedIsUnskipped | packages/pg-claude-code-recorder/client/feed.go:96-147 | However the log grows and whatever the page sizes and failures, the answers are the log in order without exactly the entries some request found behind its cursor. |
| FeedLog.SkipsNothingIff | packages/pg-claude-code-recorder/client/feed.go:61-63 | The answers are the whole log from the start on if and only if no request found its first unread entry to have its cursor's number, cut off by a limit or committed later. |
| FeedLog.NextIsBehindIff | packages/pg-claude-code-recorder/client/feed.go:137-146 | After a page cut short that entry has the number of the page's last one; after a complete answer it was committed later at the number given as the head; and in these cases exactly. |
| FeedLog.SkippedIsTied | packages/pg-claude-code-recorder/client/feed.go:123-146 | Every skipped entry has the number of the starting cursor, of the entry before it, or of a head already given when it was committed. |
| FeedLog.WithoutTiesNothingIsSkipped | packages/pg-claude-code-recorder/client/feed.go:61-63 | A feed whose numbers differ, with later entries above every head given, is handed out whole. |
| FeedServer.TiesAreResets | packages/pg-claude-code-recorder/internal/query/feed.go:13-22 | Everything before a record has a smaller number, so entries of one number are resets. |
| FeedServer.HeadSplits | packages/pg-claude-code-recorder/internal/query/feed.go:39-54 | At any moment the feed is a prefix of what it becomes, and its head is at or after all of it, at or before every later reset and before every later record. |
| FeedServer.DaemonIsHonest | packages/pg-claude-code-recorder/internal/feed/feed.go:271-333 | Whatever is committed when, whatever the limits, the floor and outages, the daemon's answers keep the promise the iterator relies on, of the rows that no re-parse withdraws before they are read. |
| FeedServer.OnceIs | packages/pg-claude-code-recorder/internal/feed/feed.go:271-333 | A read is refused exactly when the cursor is below the floor or beyond the head; otherwise it answers the next entries, as many as the limit or all there are, although records and resets are read apart and only up to the first record left out; it says whether any are left and where to go on. |
| FeedServer.DaemonAnswers | packages/pg-claude-code-recorder/internal/feed/feed.go:217-333 | The daemon answers whenever it is up and admits the cursor, with the next thousand entries, or as many as asked for, up to ten thousand. |
| FeedServer.HeadIs | packages/pg-claude-code-recorder/internal/query/feed.go:39-54 | The head is twice the number of records, and one more when a reset came after the last of them. |
| FeedServer.HeadIsAStart | packages/pg-claude-code-recorder/internal/feed/feed.go:211-215 | The head the daemon sends a reader back to is a place to begin at that skips no record. |
| FeedServer.RecordsAreNotSkipped | packages/pg-claude-code-recorder/client/feed.go:61-63 | No record is ever skipped, and the cursor of an iterator at any time is again one that skips none. |
| FeedServer.RestartsSkipOnlyResets | packages/pg-claude-code-recorder/client/feed.go:61-63 | Over any number of restarts from persisted cursors every record is consumed; only resets are skipped. |
| FeedServer.SecondResetIsSkipped | packages/pg-claude-code-recorder/internal/parser/parser.go:732-741 | Two re-parses without records: however often is asked, the second reset is not answered, with both there and a limit of one, or with the second committed after the first was answered. |
| FeedServer.NoIteratorSeesIt | packages/pg-claude-code-recorder/internal/parser/parser.go:732-741 | No iterator begun at the start of that feed ever consumes the second reset. |
| FeedIter.Iter.Remember | packages/pg-claude-code-recorder/client/feed.go:65-79 | A new key is remembered and the memory trimmed by half past its capacity; set and order stay the same keys. |
| FeedIter.Iter.Forget | packages/pg-claude-code-recorder/client/feed.go:81-91 | Filtering in place drops exactly the keys of that file and that generation, and keeps the others in order. |
| FeedIter.Iter.Pop | packages/pg-claude-code-recorder/client/feed.go:98-105 | Hands out the entry at the iterator's place in the log and moves place and cursor just past it. |
| FeedIter.Iter.Fetch | packages/pg-claude-code-recorder/client/feed.go:123-146 | One more request, answered, empty or failed, and nothing else: the iterator stands where the reference stands after it. |
| FeedIter.Iter.Drain | packages/pg-claude-code-recorder/client/feed.go:98-122 | Hands out at most one entry, dropping only what the reference memory drops. |
| FeedIter.Iter.Next | packages/pg-claude-code-recorder/client/feed.go:96-147 | What was ever consumed is the log from the start to the iterator's place without exactly the entries a request found behind its cursor, and all of it if and only if no request found its first unread entry there; each call delivers at most the next entry the memory does not hold, and ends without one only at an unknown kind, on a failed request or after its number of requests. |
| FeedIter.ConsumedIsUnskipped | packages/pg-claude-code-recorder/client/feed.go:96-147 | That holds between any two steps of the iterator, a buffered page included. |
| FeedIter.ResumeAtCursor | packages/pg-claude-code-recorder/client/feed.go:61-63 | At any time an iterator begun with the cursor begins where the first stood; its first answer repeats nothing and skips exactly what is committed by then with the cursor's number. |
| FeedIter.RestartsRepeatNothing | packages/pg-claude-code-recorder/client/feed.go:61-63 | However often the client restarts from its cursor, what it consumed in all lies in the log in order, and is the whole of it if and only if no request ever found its first unread entry behind its cursor. |
| FeedIter.DropsOnlyRepeats | packages/pg-claude-code-recorder/client/feed.go:65-91 | A record is dropped only if its key was delivered and not reset since. |
| FeedIter.DropsRecentRepeats | packages/pg-claude-code-recorder/client/feed.go:71-77 | A key among the last half capacity remembered and not reset since is always dropped. |
| FeedIter.LiveIs | packages/pg-claude-code-recorder/client/feed.go:81-91 | A key remembered once counts as reset exactly when a later reset named its very file and generation. |
| FeedIter.MemoryIsBounded | packages/pg-claude-code-recorder/client/feed.go:65-79 | The remembered keys are distinct and never more than the capacity. |
| FeedIter.NothingElseIsDropped | packages/pg-claude-code-recorder/client/feed.go:106-122 | Every entry is delivered but empty records, unknown kinds and repeats the memory held. |
| FeedIter.DeliveredInOrder | packages/pg-claude-code-recorder/client/feed.go:96-122 | Entries are delivered in log order. |
| SourceScheduler.DelayBounds | claude-marketplace/pgd/hooks/source.ts:99-103 | After a failure the delay exceeds the interval; it grows with the failures and with idleness and is at most the larger of twice the base and ten minutes. |
| SourceScheduler.DelayInNumbers | claude-marketplace/pgd/hooks/source.ts:99-103 | The delay in numbers: the interval, four times that when idle; after failures doubled as often, up to ten minutes, or twice the base where that is more. |
| SourceScheduler.ActiveInWords | claude-marketplace/pgd/hooks/source.ts:88-96 | A source without an interval is never active, one that feeds the alerts always, another while a surface it feeds is shown; idleness begins five minutes after the last event. |
| SourceScheduler.AttemptedInWords | claude-marketplace/pgd/hooks/source.ts:123-173 | An attempt is the last one from then on and has answered what forced it; only one that awaits its fetch stays in flight, one without a key clears the failures, one that throws at once adds one. |
| SourceScheduler.Sources.Schedule | claude-marketplace/pgd/hooks/source.ts:105-121 | One source's timer is replaced, due now if the source was never attempted or is forced, otherwise at the last attempt plus the delay or now, whichever is later; or dropped when the source is not active. Every other source keeps its place. |
| SourceScheduler.Sources.RunFetch | claude-marketplace/pgd/hooks/source.ts:123-173 | Begins exactly one attempt unless one is in flight; one that ends before awaiting anything re-arms the timer at once. |
| SourceScheduler.Sources.FireTimer | claude-marketplace/pgd/hooks/source.ts:111-120 | An early timer re-arms for the time still missing, never for the instant it fired; a due or forced one begins one attempt, one in flight or hidden begins none; no other source's entry and no counted request changes. |
| SourceScheduler.Sources.FetchResolved | claude-marketplace/pgd/hooks/source.ts:155-158 | A fetch that has its value clears the failures and nothing else, before the shared copy is written and the flight ends. |
| SourceScheduler.Sources.Finish | claude-marketplace/pgd/hooks/source.ts:160-173 | However many forced refreshes were heard during a flight, exactly one further attempt begins right after it; with none, the timer is armed for the last attempt plus the delay, or now; no other source's entry or requests change. |
| SourceScheduler.Sources.Refresh | claude-marketplace/pgd/hooks/source.ts:250-266 | Which refreshes begin an attempt, ask for a rerun, are remembered for a hidden source, or change nothing, with the entry, the requests and the attempts after each, and every other source untouched. |
| SourceScheduler.Sources.NoteEvent | claude-marketplace/pgd/hooks/source.ts:269-273 | An event ends idleness; after an idle spell exactly the active sources have a timer, each re-armed for its due time, otherwise nothing changes; none is left later than its delay demands. |
| SourceScheduler.Sources.SetVisible | claude-marketplace/pgd/hooks/source.ts:275-278 | After a visibility change exactly the active sources have a timer, each re-armed for its due time, and nothing but timers changed. |
| SourceScheduler.Sources.DefineSource | claude-marketplace/pgd/hooks/source.ts:207-212 | A new source joins with a fresh entry and the invariant kept; the others are untouched. |
| SourceScheduler.Sources.Tick | claude-marketplace/pgd/hooks/source.ts:99-103 | Time alone makes no timer late, idleness included. |
| SourceScheduler.Play | claude-marketplace/pgd/hooks/source.ts:90-278 | Any sequence of calls, timers and ends of flights keeps the invariant and is a history of steps. |
| SourceScheduler.FlightGoesOn | claude-marketplace/pgd/hooks/source.ts:123-127 | No event but its end begins an attempt of a source in flight, and each heard forced refresh is counted, whatever other sources do. |
| SourceScheduler.OneMoreAttempt | claude-marketplace/pgd/hooks/source.ts:123-173 | Over every history of a flight, with timers, refreshes and flights of other sources, visibility changes and time in between: it sees no other attempt of the source, and if any forced refresh was heard exactly one begins, forced, when it ends. |
| SourceScheduler.ForcedIsHeard | claude-marketplace/pgd/hooks/source.ts:250-256 | Every forced refresh of an event-driven source, or of one active at the time, is heard. |
| SourceScheduler.ForcedIsDroppedIff | claude-marketplace/pgd/hooks/source.ts:250-266 | A forced refresh leaves no trace if and only if the source is polled, not active and in flight. |
| SourceScheduler.DropsARefresh | claude-marketplace/pgd/hooks/source.ts:247-266 | A reachable state after such a refresh: the fetch is over, the source shown again, and neither flag nor attempt remains of it. |
| SourceScheduler.OneTimerOrFlight | claude-marketplace/pgd/hooks/source.ts:90-173 | A source has at most one timer and one flight; an active one with a fetch has one of them; only an active one has a timer. |
| SourceScheduler.AttemptsKeepTheirDistance | claude-marketplace/pgd/hooks/source.ts:105-121 | An attempt nobody forced begins at least the delay then in force after the one before. |
| LineBuffer.Utf8Len | claude-marketplace/pg-claude-control/hooks/core.ts:17-29 | The loop counts as the recursive definition does. |
| LineBuffer.CountedAgainstEncoded | claude-marketplace/pg-claude-control/hooks/core.ts:16-29 | The count never exceeds the encoded length and equals it if and only if every run of high surrogates is one before a low one, ASCII or the end, or two before a low one. |
| LineBuffer.WellFormedIsExact | claude-marketplace/pg-claude-control/hooks/core.ts:16-29 | On well-formed input the count is the length of the encoding of section 3 of RFC 3629. |
| LineBuffer.LoneSurrogateIsShort | claude-marketplace/pg-claude-control/hooks/core.ts:16-29 | An ill-formed string that is counted one byte short. |
| LineBuffer.LinesAreTheStream | claude-marketplace/pg-claude-control/hooks/core.ts:57-85 | The lines with their newlines and the tail are the stream. |
| LineBuffer.SplittingIsUnique | claude-marketplace/pg-claude-control/hooks/core.ts:57-85 | There is one way to cut a stream into newline-free lines and a newline-free tail, and the model's is it. |
| LineBuffer.LineBuffer.Push | claude-marketplace/pg-claude-control/hooks/core.ts:61-85 | A chunk adds exactly the lines it completes that fit, in order, and the count of the others. |
| LineBuffer.BufferIsBounded | claude-marketplace/pg-claude-control/hooks/core.ts:77-81 | The buffer never holds more than 511 bytes. |
| LineBuffer.PushAll | claude-marketplace/pg-claude-control/hooks/core.ts:57-85 | However a stream is cut, even inside a surrogate pair, the lines and the count are those of the whole stream. |
| Reap.Select | packages/ccpool/internal/session/reap.go:131-166 | The picks are the expired rows nobody waits for and, of the others whose turn has ended, as many as the excess over the cap or all, least recently active first. |
| Reap.FitsOrNothingToEvict | packages/ccpool/internal/session/reap.go:149-166 | After the closures the counted rows fit the cap or none left has ended its turn. |
| Reap.NeverPicked | packages/ccpool/internal/session/reap.go:32-57 | A row parked for a human is never picked, nor one that neither expired nor ended its turn. |
| Reap.PickedFor | packages/ccpool/internal/session/reap.go:139-166 | A row is picked for its age exactly when nobody waits for it, there is a limit, and more nanoseconds than that have passed since the second of its last activity; for the cap only when idle or errored and not past the limit. |
| Reap.RevalidationOnlyShrinks | packages/ccpool/internal/session/reap.go:229-249 | Under the lock, only picked rows are closed, none that is parked by then, and every picked row that did not change. |
| Reap.ClosedIff | packages/ccpool/internal/session/reap.go:206-249 | Closed are exactly the picked rows that are still there under their lock, not parked for a human, and still past the age, or still idle or errored. |
| Reap.ReapLive | packages/ccpool/internal/session/reap.go:131-193 | The closures are the picks re-judged one by one. |
| Reap.CapacityOf | packages/ccpool/internal/session/capacity.go:41-67 | Admission's free slots come from the same count as the reaper's. |
| Reap.FreeMeansNoEviction | packages/ccpool/internal/session/capacity.go:54-66 | A pool admission sees a free slot in is not evicted from for its cap. |
| Metrics.Registry.Add | packages/beads-exporter/internal/metrics/metrics.go:68-81 | A family is taken exactly when its type is known, it is new and it has the database as its first label. |
| Metrics.Default | packages/beads-exporter/internal/metrics/families.go:31-123 | The static family table is accepted whole. |
| Metrics.Registry.Render | packages/beads-exporter/internal/metrics/metrics.go:93-131 | For any registry, rendering succeeds if and only if every sample's family is registered, it carries its labels and no two are of one series; then each family is written once, sorted. |
| Metrics.LessSampleIsAStrictOrder | packages/beads-exporter/internal/metrics/metrics.go:134-141 | The label order is one a sort accepts. |
| Metrics.LessValuesIs | packages/beads-exporter/internal/metrics/metrics.go:134-141 | The first label value that differs decides the order. |
| SliceSort.LessIs | packages/beads-exporter/internal/metrics/metrics.go:134-141 | A string comes first exactly when it ends where the other goes on, or has the smaller character where they first differ. |
| Analyze.LabelCap | packages/beads-exporter/internal/analyze/analyze.go:222-276 | The kept labels are the most common eligible ones with their counts, distinct from the remainder's name; beads with any other label are counted once. |
| Analyze.KeptComeFirst | packages/beads-exporter/internal/analyze/analyze.go:237-262 | Every kept label is on at least as many beads as any other with a name of its own, and of equally common ones it comes first in the order of characters. |
| Analyze.Summarize | packages/beads-exporter/internal/analyze/analyze.go:150-204 | States, oldest times, statuses, types, priorities, labels and queues of the beads, zero-filled. |
| Analyze.PublishedStatesAddUp | packages/beads-exporter/internal/analyze/analyze.go:53-74 | Every bead is in exactly one state: the published states add up to the beads. |
| Analyze.PublishedStateIs | packages/beads-exporter/internal/analyze/analyze.go:43-74 | A state's published count is that of the beads its rule takes and no rule before it took, each rule in terms of the bead. |
| Analyze.PublishedOldestIs | packages/beads-exporter/internal/analyze/analyze.go:150-184 | A state's oldest time is the least of those of the beads its rule takes, if any has one: of work in progress since it was started, if that is known, else since the bead was created. |
| Analyze.PublishedTalliesAre | packages/beads-exporter/internal/analyze/analyze.go:150-184 | How many beads have each status, type and priority, those without a type under "unknown", on top of the zeros and the closed count. |
| Samples.MainSamples | packages/beads-exporter/internal/analyze/analyze.go:279-312 | Exactly the series of the summary, each with its value and as often as it is there; two of them coincide if and only if two queues share a name. |
| Samples.MainSeriesAre | packages/beads-exporter/internal/analyze/analyze.go:279-312 | Which series these are, family by family, with their labels and values, times in seconds. |
| Stranded.Classify | packages/beads-exporter/internal/stranded/classify.go:94-116 | Exactly the claims not updated within the age, or never, in the order of their bead ids. |
| Stranded.ClaimsAre | packages/beads-exporter/internal/stranded/classify.go:75-116 | The claims are those of the assigned beads in one of the three statuses last updated more than the age ago or never. |
| Stranded.PublishedCountsAddUp | packages/beads-exporter/internal/stranded/classify.go:43-68 | Every classified claim is in exactly one published count. |
| Stranded.StrandedSamples | packages/beads-exporter/internal/stranded/classify.go:43-68 | A count per claim status, zeros included, and the oldest update if any, and nothing else. |
| Stranded.InClaimSeries | packages/beads-exporter/internal/stranded/classify.go:43-68 | Which series these are: for each status the number of claims that have it, and the update no other claim's is before, in seconds. |
| Collector.MetaSamples | packages/beads-exporter/internal/collect/collect.go:124-147 | Exactly the health series of a pass, distinct, with up exactly while the failures in a row are below the threshold. |
| Collector.SnapshotSamples | packages/beads-exporter/internal/collect/collect.go:91-111 | For each database and each pass with a state, each series of its data, if it has data, and of its health, as often as it is there, and no other sample; no two coincide if and only if no published main result has two queues of one name. |
| Collector.Collector.Record | packages/beads-exporter/internal/collect/collect.go:240-264 | Only the recorded database and pass change; a failure drops the data and counts up, a success resets the count; the snapshot shows it. |
| Collector.Collector.Publish | packages/beads-exporter/internal/collect/collect.go:268-284 | The new snapshot has each database once, in name order, with its current state, the others untouched. |
| Collector.Scrape | packages/beads-exporter/internal/collect/collect.go:91-111 | A scrape of any reachable state renders if and only if no published main result has two queues of one name; then it holds each sample of the snapshot, as often as it is there, in the sorted group of its family. |
| Collector.ConfiguredQueuesDiffer | packages/beads-exporter/internal/analyze/analyze.go:186-202 | Queues configured with different names cannot cause that. |
| Collector.Collect | packages/beads-exporter/internal/collect/passes.go:76-127 | A pass's result is what its counts, labels, queues or claims make of the beads it was answered, or the failure it was answered, and with configured queues of different names every result renders. |
| Collector.RunPass | packages/beads-exporter/internal/collect/collect.go:218-238 | A pass run over the databases, interrupted anywhere, records one event for each database asked, in order, each from that database's answer, and every published result still renders. |
| Collector.EveryScrapeRenders | packages/beads-exporter/internal/collect/collect.go:91-111 | After any history of pass runs over any beads and failures a scrape renders, given configured queues of different names, and holds the samples of the state that history led to. |
| Scrapes.HistoryDecides | packages/beads-exporter/internal/collect/collect.go:240-264 | After any history a pass has a state exactly when it ran, and it tells of exactly its own runs: the last one's data, or none if it failed, its duration, the end of the last success, the failures since, and the failures of each reason. |
| Scrapes.TimesInWords | packages/beads-exporter/internal/collect/collect.go:91-147 | A snapshot's samples are, for each database and pass, the series of the main, throughput or stranded data with their values, and of its health, and no others. |
| Scrapes.ScrapeIsHistory | packages/beads-exporter/internal/collect/collect.go:91-147 | From history to scrape: in the group of each family are exactly the samples of that family that the own runs of some pass of some database call for. |

## Left out

- SQLite, tmux, sockets, HTTP, JSON and path handling: atomic store operations, arbitrary liveness answers, decoded lines.
- The FNV and CRC algorithms: uuids and message ids are their hashes, and equal hashes are equal events, as in the program.
- 64-bit overflow of token sums and counters: integers are unbounded in the merge; the codec has the widths.
- Releasing the uuid slices inside mergeSessions, which only frees memory.
- The worker pool of parseFiles: results arrive in an arbitrary order.
- The name check and directory listing of the lock package, and the age rule of the lock sweep, which is an arbitrary answer.
- Token and resource attribution of runs, telemetry, logging and the gauges of the reaper.
- The reaper's dead-row passes as selections: their store operations are part of the run lifecycle.
- LockProtocol.RunKeepsInv: the two programs are a step system, one action a system call, because the property is about interleavings, so the Go loop itself is not a method.
- RunLifecycle.RunKeepsInv: the handlers are lists of store operations rather than methods, for the same reason.
- FeedIter.Iter.Next: gives up after a number of requests in place of a cancelled context, and the back-off sleeps are left out.
- FeedIter.Iter.Fetch: the server is any function of cursor and request number that keeps the promise; the daemon's admission and waiting are not modelled.
- FeedServer.DaemonIsHonest: records a re-parse deletes before they are read are not in the log, and whether a reset passes the filter is fixed; the epoch is one.
- FeedServer.DaemonAnswers: a request without a cursor, which begins at the floor, is one whose cursor is the floor.
- SourceScheduler.Sources.RunFetch: cached values, change listeners and invalidation are left out; a flight's awaits are the events between its beginning and its end.
- SourceScheduler.Sources.DefineSource: one registry generation, each id defined once; the entries are values in a map that the methods reassign.
- SummaryCache.Cache.Summarize: the tree does not change during a call, only between calls; size and time determine content.
- Metrics.Registry.Render: the text of names, help and numbers and the escaping of label values are left out; families and label names are enumerations.
- Metrics.Registry.Add: no family name is empty, names being an enumeration.
- Analyze.Summarize: queue filters are applied before; the loops over beads, labels and queues are separate methods.
- Collector.Collector.Record: the clock and the run lock; a pass has a state only once it was attempted.
- IdWindow, RespawnCounter, request parsing and the request log of the control mod: easy members beside the line splitter.
