# Cato, modelled and proved

Cato keeps a personal game library on one's own server. This project models
the parts of it where state, concurrency or parsing make correctness hard, and
proves what they are relied on for.

- **The library ledger** (`Library*.dfy`, `Text.dfy`). A library is a small
  database: rows, playthroughs, sessions, tombstones. Triggers stamp
  revisions, bury deleted rows and fold session minutes into stored totals.
  `LibraryTables` has every statement with its triggers' bodies run in place;
  `LibraryWrites`, `LibraryUndo`, `LibraryImport` and `LibraryHistory` the
  operations as functions on the tables; `LibraryStore` the same operations as
  methods that change a store's fields step by step, each proved equal to its
  function; `LibrarySync` the delta index and the client that replays it;
  `LibraryLedger` and `LibraryInvariant` what holds over every history;
  `LibraryExact` when totals are sums and which step ends that;
  `LibraryPlatforms` the column the delta index misses and `LibraryClient` a
  client that syncs again and again; `LibraryWitness` the
  histories that reach each state where the library is not what one expects.
  What each operation leaves, column by column, is in `LibraryEffects` (a
  write's row, session and refusals), `LibraryRuns` (its playthroughs),
  `LibraryOperations` (deletions, bulk edits and the journal),
  `LibraryJournal` (imports) and `LibraryLogs` (undo entries and batches);
  `LibraryAnswers` says when each operation commits.
- **The two-lane IGDB limiter** (`IgdbLimiter.dfy`): the passes of many
  waiters under one lock, as interleaved steps of arrivals, sleeps, wakes,
  timeouts and cancellations.
- **The CBOR decoder** of passkeys, a subset of section 3 of RFC 8949
  (`Cbor.dfy`), a specification encoder with the shortest heads of section
  4.2.1 (`CborEncoding.dfy`), and the authenticator data around it
  (`Passkey.dfy`).
- **Smaller protocols and algorithms**: the module preload walk
  (`ModulePreload.dfy`), catalog search (`CatalogSearch.dfy`,
  `Collation.dfy`), refresh admission and shutdown (`SearchRefresh.dfy`), the
  activity feed (`ActivityFeed.dfy`), library paging (`LibraryPaging.dfy`),
  the sliding-window limiter (`RateLimit.dfy`), and accounts, follows, blocks,
  invites and visibility (`Social.dfy`).

In these places Cato does less than its comments or its users may expect. Each
is modelled as it is, with the exact condition under which it holds:

- The stored total of an item, and of each playthrough, equals the sum of its
  sessions only until a clamp at zero fires (`internal/db/migrate.go:584-600`);
  it always covers the sum. An ordinary write can fire one: minutes taken off a
  total come off the current run, which may hold less. For every kind of step
  the guard is stated on the state before it.
- The delta index carries the platforms a game came out on
  (`internal/library/index.go:54`), but the trigger that moves revisions on
  catalog edits does not watch that column (`internal/db/migrate.go:371-374`):
  a client that syncs shows each game with the platforms it had when its row
  was last sent, and is wholly in sync exactly when none changed since.
- The limiter's waiters are told apart by pointers to an empty struct
  (`internal/catalog/types.go:116`), which may compare equal, and with the
  usual Go runtime do: a lane is first in, first out exactly when waiters have
  addresses of their own. Everything else proved of the limiter holds for any
  addresses.
- Search refreshes are limited to two at once and one per query
  (`internal/catalog/service.go:163-166`), but the daily job that refreshes
  expired queries (`internal/catalog/jobs.go:33-37`) takes no slot and marks no
  key: a third query may be fetched at once, and a query twice, exactly when
  the job and a search ask for the same one. The service's shutdown does not
  wait for it.
- Undo gives back stored totals exactly when each was the largest sum of last
  sessions in id order, and a playthrough's edition is not in the snapshot
  (`internal/library/undo.go:43-52`).
- The session update trigger takes old minutes off a run with a clamp and adds
  the new ones without one, so an import whose sessions exceed a positive
  total is refused when its status opened a run
  (`internal/library/importbatch.go:213-248`).
- An import run twice changes the library again when an entry has a blank
  platform or date text for something the game lacks.
- Editing a playthrough can reopen an old run
  (`internal/library/journal.go:342-348`), the only way to two open ones.
- Follow reads blocks and level outside its transaction
  (`internal/social/follows.go:19-35`): a block in between stays beside the
  follow.
- Deleting an account clears `used_by` on the invite that made it, and only
  `used_by` is looked at (`internal/social/invites.go:239-241`): the link works
  again.
- CanSee reads an empty level as inherited, the SQL predicate does not
  (`internal/social/social.go:91-107`). No caller passes an empty level: the
  one call is `internal/social/profile.go:87`, and the columns exclude it.

## Model

| member | source | states |
|---|---|---|
| `LibrarySync.SyncConverges` | internal/library/index.go:36-102 | A client whose copy showed an earlier state of a history, the games’ platforms aside, and that applies the index since its revision shows the current library, platforms aside: the revision trigger does not watch them. Rows sent bring theirs along, others keep the copy’s, so the copy is exact exactly when it was up to date about the rows not sent |
| `LibraryInvariant.SyncOverHistory` | internal/library/index.go:36-102 | The same for any such copy over every run of writes, imports, deletions, undos, catalog edits and other users’ inserts; the revision never goes back, and at an unchanged revision the index may be skipped |
| `LibraryClient.SyncsConverge` | web/static/js/core/store.js:157-182 | However often a client syncs along one history, once in step it stays in step, and it shows every game with the platforms it had when its row was last sent |
| `LibraryClient.SyncsExact` | web/static/js/core/store.js:157-182 | After any number of syncs the copy is exact exactly when no listed game has other platforms than it was last sent with |
| `LibraryClient.NewClient` | web/static/js/core/store.js:157-182 | The same for a client that starts with nothing, along any history from an empty library |
| `LibraryClient.SyncsUnlessQuiet` | web/static/js/core/store.js:157-182 | While no catalog edit of a listed game changes its platforms and nothing watched, a client that showed the library shows it after every sync, to the last column |
| `LibraryPlatforms.SyncUnlessQuiet` | internal/library/index.go:36-102 | Over every history in which no catalog edit of a listed game changes its platforms and nothing watched, a client once in sync is in sync again after one index, to the last column |
| `LibraryPlatforms.StepPlatforms` | internal/db/migrate.go:368-376 | Exactly such an edit leaves a client that was in step with platforms it is never sent |
| `LibraryPlatforms.PlatformNeverSent` | internal/db/migrate.go:368-376 | From an empty library: a listed game comes out on one platform more, the revision stays, and a client in sync before is not after any index |
| `LibrarySync.SameRevSameLibrary` | internal/db/migrate.go:553-573 | At an equal revision of one history a copy goes on showing the library, platforms aside, and is exact exactly when it was up to date about them |
| `LibrarySync.FullSnapshot` | internal/library/index.go:36-102 | A client ahead of the server, or with nothing, gets a full index that replaces whatever it held with the library |
| `LibrarySync.IndexDisjoint` | internal/library/index.go:36-102 | No game is listed twice in an index, none is both listed and deleted |
| `LibrarySync.NewestFirst` | internal/library/index.go:36-102 | Listing rows by updated_at and game id descending gives every row exactly once in that order |
| `LibraryStore.Store.Index` | internal/library/index.go:36-102 | The loop over rows and tombstones answers exactly the rows and deletions after the revision asked for, newest first |
| `LibrarySync.IndexSays` | internal/library/index.go:36-102 | Each of the fifteen fields of every entry is that column of its row or catalog game, the cover the local one first, the notes their first 140 characters; entries are newest first |
| `LibrarySync.IndexHolds` | internal/library/index.go:36-102 | An index lists exactly the games whose rows are newer than the revision asked for, and the deletions newer than it unless it is full, as it is from 0 or from ahead of the server |
| `LibraryTables.PutGameEvolves` | internal/db/migrate.go:368-376 | A catalog edit keeps the tables sound and is told by the revisions: whoever looks only at later rows misses nothing watched |
| `LibraryTables.PutGameIs` | internal/db/migrate.go:368-376 | A catalog edit of a listed game moves the revision by one and stamps its row with it exactly when a watched column changes |
| `LibraryTables.EvolvesTransitive` | internal/db/migrate.go:553-573 | What revisions and tombstones tell about a change composes over any number of statements |
| `LibraryTables.InsertItemSteps` | internal/db/migrate.go:553-560 | Adding a game keeps keys, CHECKs and counters, marks exactly its row, clears its tombstone, and touches nothing of other games |
| `LibraryTables.UpdateItemSteps` | internal/db/migrate.go:561-567 | Updating a row stamps it with the next revision, which becomes the counter, and touches nothing else |
| `LibraryTables.DeleteItemSteps` | internal/db/migrate.go:568-573 | Deleting a game takes its journal with it, leaves a tombstone at the next revision, and touches nothing else |
| `LibraryInvariant.ReachableLibrary` | internal/db/migrate.go:584-600 | In every library reached from an empty one: no total of an item or playthrough is below zero or below its sessions’ sum, a current playthrough is the item’s own, and unless a step reopened an old run every other one is finished |
| `LibraryExact.ReachableExact` | internal/db/migrate.go:584-600 | In every library reached from an empty one by steps of which none fires a clamp, the total of every item and of every playthrough equals the sum of its sessions |
| `LibraryExact.HistoryExact` | internal/db/migrate.go:584-600 | All along a history that starts with exact totals they stay exact exactly when no step fires a clamp |
| `LibraryExact.StepExact` | internal/db/migrate.go:584-600 | For every kind of step, from exact totals: every total is exact after it exactly when the guard read off the state before it does not hold (a write on a run that holds less, a session larger than a total, a cascade or a replay with a first part below zero) |
| `LibraryExact.WriteExact` | internal/library/write.go:302-335 | A committed item write keeps the totals of the item and its playthroughs exact exactly when the run it logs on, a new one holding nothing, does not hold less than the write takes away |
| `LibraryExact.UpdateRunsChooses` | internal/library/write.go:343-473 | Whether a write ends on a new run, the current one or none, from the statuses, the current run and the edition |
| `LibraryExact.CascadeExact` | internal/library/journal.go:381-405 | Deleting a playthrough keeps its game’s totals exact exactly when the item’s total never falls below zero on the way, for any order of the cascade |
| `LibraryLedger.CascadeMoves` | internal/library/journal.go:381-405 | A playthrough’s deletion keeps every invariant in whatever order its sessions go |
| `LibraryExact.RestoredExact` | internal/library/undo.go:196-232 | A snapshot put back has exact totals exactly when no first part of its sessions, of the item or a run, is negative |
| `LibraryExact.RestoreAllExact` | internal/library/undo.go:157-194 | An undo or import undo keeps all totals exact exactly when no game’s last snapshot clamps |
| `LibraryExact.ImportEachExact` | internal/library/importbatch.go:53-116 | An import never breaks the equality of totals and sessions |
| `LibraryExact.BulkEachExact` | internal/library/bulk.go:27-95 | Neither does a bulk edit |
| `LibraryWitness.RunTotalClamps` | internal/db/migrate.go:584-589 | From an empty library: finish at 100 minutes, play again, lower the total to 50; the new run then holds 0 and its sessions sum to -50 |
| `LibraryInvariant.HistoryInvariant` | internal/library/write.go:343-473 | Over every history the invariants survive: sound tables, covered totals, restorable logs, linked current runs, and at most one open run as long as no step reopens an old one |
| `LibraryInvariant.StepInvariant` | internal/library/journal.go:300-378 | Each step keeps the invariants, and keeps at most one open run exactly when it is not a playthrough edit that clears the end of a run other than the current one |
| `LibraryWitness.TwoOpenRuns` | internal/library/journal.go:342-348 | From an empty library: finish a game, play it again, clear the end of the first run; two runs are open |
| `LibraryLedger.InsertTotals` | internal/db/migrate.go:584-589 | When a session is added, the totals of its item and all the item’s runs stay the sums of their sessions exactly when neither the item’s nor the run’s clamp fires |
| `LibraryLedger.DeleteTotals` | internal/db/migrate.go:590-594 | The same when a session goes: exactly when its minutes exceed neither total |
| `LibraryLedger.UpdateTotals` | internal/db/migrate.go:595-600 | The same when a session changes: exactly when the item’s shifted total is not negative and the run’s total covers the old minutes |
| `LibraryWrites.ApplyChangeRow` | internal/library/write.go:171-339 | The row a write commits: the checked fields asked for, the total set to n, shifted to max(0, total + d) by a delta, or kept |
| `LibraryWrites.ApplyChangeExact` | internal/library/write.go:302-335 | A committed item write never breaks the equality of the item’s own total and its sessions |
| `LibraryWrites.ApplyChangeCommits` | internal/library/write.go:171-339 | A write commits exactly when its checks pass, the total it asks for is not negative, and the note of minutes to log is not too long |
| `LibraryWrites.ApplyChangeMoves` | internal/library/write.go:171-339 | A committed write touches only its game, keeps its current run linked and its runs in order, and moves the revision forward |
| `LibraryWrites.ApplyChangeStartsPlaying` | internal/library/write.go:343-473 | Moving into playing ends with an open current run and leaves every finished run as it was |
| `LibraryRuns.ApplyChangeEnds` | internal/library/write.go:413-473 | Entering completed or abandoned ends the current run, a new one if there was none: its end, completion, rating, start, platform, edition and note are told field by field, every other run stays, and it is left open exactly when a completion’s date is blanked |
| `LibraryRuns.ApplyChangeStarts` | internal/library/write.go:343-412 | Entering playing goes on with an open current run or opens a new one, told field by field, and leaves every other run as it was |
| `LibraryRuns.ApplyChangeGoesOn` | internal/library/write.go:436-473 | Any other write puts only its own edits into the current run, opens one only for an edition, and leaves the others as they were |
| `LibraryEffects.ApplyChangeSaves` | internal/library/write.go:171-300 | Every column of the committed row: what the change gives, else what was stored or a new row’s default; dates are stamped on entering the status and only then |
| `LibraryEffects.ApplyChangeRefuses` | internal/library/write.go:171-339 | A write is refused exactly for the listed reasons, and the answer names one that is there |
| `LibraryEffects.ApplyChangeLogs` | internal/library/write.go:302-335 | A moved total is logged as one session, with its run, day, minutes, trimmed note and source, and nothing else of the journal’s sessions moves |
| `LibraryEffects.ReplaceResets` | internal/library/write.go:86-112 | A replace resets what it leaves out; only the dates are kept |
| `LibraryAnswers.StepAnswers` | internal/library/write.go:171-339 | At the end of every history every kind of operation is carried out exactly when the condition stated on the library before it holds, and is refused with nothing changed otherwise |
| `LibraryOperations.DeletedGames` | internal/library/write.go:572-603 | Deleting games takes exactly those, their runs and sessions away, leaves each a tombstone newer than before, and stops a timer running on one |
| `LibraryOperations.BulkDoes` | internal/library/bulk.go:27-95 | A bulk edit gives every chosen game in the library its status and tags, keeps its other columns, and leaves other rows alone; with remove they are gone; no or too many ids are refused |
| `LibraryOperations.EditedTags` | internal/library/bulk.go:97-114 | The tags left are exactly the stored and added ones less the removed ones, by key |
| `LibraryOperations.DedupedIds` | internal/library/bulk.go:116-126 | The ids looked at are the positive ones, each where it stood first |
| `LibraryStore.Store.ApplyChange` | internal/library/write.go:171-339 | The statements of a write, in order, give the specified tables or the specified error; a missing row or game is found before anything is written, after other errors the caller rolls back |
| `LibraryStore.Store.UpdatePlaythroughs` | internal/library/write.go:343-473 | Opening, finishing and editing runs in place gives the specified tables and current run |
| `LibraryStore.Store.ValidateState` | internal/library/write.go:475-526 | The state after a change, tidied and checked, or the specified error |
| `LibraryStore.Store.TidyTags` | internal/library/write.go:475-526 | Trimming, dropping blanks and later duplicates and the limits, in a loop, give the specified tags |
| `LibraryStore.Store.TidyPlatforms` | internal/library/write.go:475-526 | The same for owned platforms, whose length is limited in bytes and before a repeat is skipped |
| `LibraryStore.Store.LogMinutes` | internal/library/write.go:302-335 | Logging the difference of totals as one session gives the specified tables or error |
| `LibraryStore.Store.Write` | internal/library/write.go:171-339 | A write and its undo entry commit together or not at all |
| `LibraryStore.Store.DeleteMany` | internal/library/write.go:572-603 | Deleting games, with their snapshots in one undo entry, commits as specified or leaves everything as it was |
| `LibraryStore.Store.InsertItem` | internal/db/migrate.go:553-560 | The insert with its trigger’s body gives the specified tables |
| `LibraryStore.Store.UpdateItem` | internal/db/migrate.go:561-567 | The update with its trigger’s body gives the specified tables |
| `LibraryStore.Store.DeleteItem` | internal/db/migrate.go:568-573 | The deletion with its cascade and trigger gives the specified tables |
| `LibraryStore.Store.PutGame` | internal/db/migrate.go:368-376 | A catalog edit with its trigger gives the specified tables |
| `LibraryStore.Store.InsertSession` | internal/db/migrate.go:584-589 | A session insert with its trigger gives the specified tables |
| `LibraryStore.Store.DeleteSession` | internal/db/migrate.go:590-594 | A session delete with its trigger gives the specified tables |
| `LibraryStore.Store.UpdateSession` | internal/db/migrate.go:595-600 | A session update with its trigger gives the specified tables, or is refused by the run’s CHECK with nothing changed |
| `LibraryUndo.RestoreItemWorks` | internal/library/undo.go:196-232 | Restoring a restorable snapshot never fails or collides on an id, and puts back its row, runs and sessions, with totals replayed through the clamps |
| `LibraryUndo.UndoExact` | internal/library/undo.go:78-232 | After any later writes, restoring a game’s snapshot gives it back but for stored totals and run editions; it gives those back too exactly when each total was the largest sum of last sessions and no run named an edition |
| `LibraryUndo.ExactTotalsReplay` | internal/library/undo.go:196-232 | When totals were sums, undo is exact exactly when no first part of the sessions in id order is negative, for the item or any run, and no run names an edition |
| `LibraryUndo.ClampIsPeak` | internal/db/migrate.go:584-589 | Replaying minutes through the clamp ends at the larger of the total plus their sum and their largest final sum |
| `LibraryUndo.ReplayIsSum` | internal/db/migrate.go:584-589 | A replay from zero gives the plain sum exactly when no first part is negative |
| `LibraryUndo.UndoRemoves` | internal/library/undo.go:196-232 | Undoing the addition of a game takes it out again |
| `LibraryUndo.SnapshotRestorable` | internal/library/undo.go:78-134 | A snapshot taken of a sound library can always be put back |
| `LibraryUndo.RestorableLater` | internal/library/undo.go:157-194 | It stays so whatever is written later, since ids are never given to another game |
| `LibraryInvariant.UndoRestoresAll` | internal/library/undo.go:157-194 | An undo of several games restores each of them and leaves the rows of the others alone |
| `LibraryInvariant.UndoOverHistory` | internal/library/undo.go:157-194 | When the entry under a live token holds snapshots of a library, undoing it later gives back every game it names, succeeds and is used up |
| `LibraryLogs.LiveTokenGivesBack` | internal/library/undo.go:136-194 | For every history from an empty library and every live token there is a first part of the history whose library the undo gives back for each game the entry names, the rows of the others as they are |
| `LibraryLogs.UndoAnswers` | internal/library/undo.go:157-194 | At the end of every history an undo succeeds exactly when its token has an entry at most 900 seconds old, and otherwise answers that it expired with nothing changed |
| `LibraryLogs.UndoWorksInTime` | internal/library/undo.go:136-194 | The entry a step made works until 900 seconds after it, whatever else happens by then short of its own undo |
| `LibraryLogs.StepRecorded` | internal/library/undo.go:136-153 | A step that carries a token adds one entry under it, made at its own time with snapshots of the library before it, and drops only what is older than 900 seconds |
| `LibraryLogs.ImportRecorded` | internal/library/importbatch.go:53-116 | An import that changes something adds one batch, not undone, with a snapshot of each changed game from before it |
| `LibraryLogs.BatchGivesBack` | internal/library/importbatch.go:279-306 | The same for every import batch not undone yet |
| `LibraryLogs.BatchUndoAnswers` | internal/library/importbatch.go:279-306 | A batch can be undone exactly when it exists and was not undone yet; otherwise nothing changes |
| `LibraryOperations.Pruned` | internal/library/undo.go:235-243 | Pruning drops exactly the entries older than 900 seconds |
| `LibraryInvariant.StepRecords` | internal/library/undo.go:136-153 | After a step every undo entry and import batch is the one from before it, or holds snapshots of the library right before it, also when an expired token is used again |
| `LibraryWitness.UndoMovesTotal` | internal/library/undo.go:196-232 | From an empty library: total set to 10, to 0, 10 more logged, the first session deleted; all totals are sums, yet writing nothing and undoing it raises the total |
| `LibraryStore.Store.SnapshotItem` | internal/library/undo.go:78-134 | The loops over runs and sessions build the specified snapshot |
| `LibraryStore.Store.RestoreItem` | internal/library/undo.go:196-232 | Deleting and inserting again row by row gives the specified tables or error |
| `LibraryStore.Store.SaveUndo` | internal/library/undo.go:136-153 | Expired entries go, the snapshots are kept under the token, or a used token is refused |
| `LibraryStore.Store.UndoWrite` | internal/library/undo.go:157-194 | Undo restores all snapshots of a live token and drops it, or changes nothing |
| `LibraryImport.ImportTwice` | internal/library/importbatch.go:53-116 | A committed import run again changes nothing and skips every entry when the entries are free of blank platform and date texts for what a game lacks, and only then leaves the library untouched |
| `LibraryWitness.ImportsAgain` | internal/library/importbatch.go:127-199 | From an empty library: an entry whose platform is a blank makes the second import move the revision and record a batch again |
| `LibraryImport.SettlesIffQuiet` | internal/library/importbatch.go:127-199 | Entry by entry: importing leaves nothing to do exactly when the entry has no such blank text |
| `LibraryImport.ImportOnlyFills` | internal/library/importbatch.go:127-199 | An import never overwrites a rating, notes, platforms or dates, drops a tag or lowers play time |
| `LibraryImport.ImportedSessionsKeepTotal` | internal/library/importbatch.go:213-248 | A newly added game’s total is the imported one when positive and else the sessions’ sum; refused exactly when positive sessions exceed a positive total and a run was opened |
| `LibraryImport.ImportRefused` | internal/library/importbatch.go:213-248 | An otherwise acceptable new game is refused by a CHECK exactly when its sessions sum past its positive total and its status opens a run |
| `LibraryJournal.AddedJournal` | internal/library/importbatch.go:213-248 | A new game’s journal: the entry’s sessions with positive minutes and a readable day, in order under consecutive new ids, each with its own day, minutes and trimmed note and no run, and before them an adjustment for what they leave of the total |
| `LibraryJournal.FilledJournal` | internal/library/importbatch.go:127-199 | A game already there gets no sessions; a larger total is logged as one adjustment |
| `LibraryJournal.ImportDoes` | internal/library/importbatch.go:53-116 | A committed import does to every game what the first entry naming it says, column by column, and leaves every other row alone; none or more than 10000 entries are refused |
| `LibraryJournal.BatchCounts` | internal/library/importbatch.go:53-116 | What an import reports are the games that are new, those changed and the rest of the entries looked at |
| `LibraryWitness.ImportFails` | internal/library/importbatch.go:213-248 | From an empty library with one catalog game: a playing game of 10 minutes with a session of 20 fails the whole import |
| `LibraryStore.Store.ImportChange` | internal/library/importbatch.go:127-199 | The fields an entry fills are the specified ones |
| `LibraryStore.Store.AddImportedSessions` | internal/library/importbatch.go:213-248 | Inserting sessions and shrinking the adjustment in a loop gives the specified tables |
| `LibraryStore.Store.RunImport` | internal/library/importbatch.go:53-116 | An import commits all its entries with one batch, or nothing |
| `LibraryStore.Store.UndoImport` | internal/library/importbatch.go:279-306 | Undoing a batch restores its snapshots once |
| `LibraryStore.Store.LogSynced` | internal/library/journal.go:147-174 | A synced session is checked and logged on the current run, with an undo entry |
| `LibraryStore.Store.RemoveSession` | internal/library/journal.go:177-195 | A session is deleted with an undo entry |
| `LibraryStore.Store.EditSession` | internal/library/journal.go:198-236 | A session is checked and edited with an undo entry, or nothing changes |
| `LibraryStore.Store.EditPlaythrough` | internal/library/journal.go:300-378 | A run is checked field by field and edited, its item touched so that the revision moves, or the code of the first bad field is answered |
| `LibraryStore.Store.DeletePlaythrough` | internal/library/journal.go:381-405 | A run and its sessions go, and the item’s current run is cleared if it was that one |
| `LibraryStore.Store.StopTimer` | internal/library/journal.go:454-508 | The timer stops even when logging its session then fails |
| `LibraryOperations.SyncedSession` | internal/library/journal.go:147-174 | A synced session is one more session of the game’s current run, its minutes on both totals |
| `LibraryOperations.RemovedSession` | internal/library/journal.go:177-195 | Removing a session takes it and its minutes off both totals and touches no other |
| `LibraryOperations.EditedSession` | internal/library/journal.go:198-236 | An edited session has the day, minutes and note given and keeps the rest; the item’s total shifts by the difference |
| `LibraryOperations.EditedPlaythrough` | internal/library/journal.go:300-378 | An edited run has the fields given, blank ones cleared, and keeps the rest; nothing else changes but revisions, and bad fields are refused |
| `LibraryOperations.DeletedPlaythrough` | internal/library/journal.go:381-405 | A deleted run is gone with its sessions, the other runs and sessions stay, and no row points at it |
| `LibraryOperations.StartedTimer` | internal/library/journal.go:439-450 | Starting a timer notes the game and the time, for a game in the library only |
| `LibraryOperations.StoppedTimer` | internal/library/journal.go:454-508 | Stopping always stops; if asked to, it logs one session of the game for the corrected or elapsed minutes |
| `LibraryOperations.TimerRounds` | internal/library/journal.go:468-481 | The minutes are the corrected ones, else the elapsed time to the nearest minute, from one minute to a day |
| `LibraryStore.Store.Bulk` | internal/library/bulk.go:27-95 | A bulk action on distinct valid ids commits as specified, or nothing changes |
| `LibraryStore.Store.EditTags` | internal/library/bulk.go:97-114 | Adding then removing tags without regard to case gives the specified list |
| `LibraryStore.Store.DedupeIds` | internal/library/bulk.go:116-126 | Positive ids once each, in order |
| `Text.DistinctIsTidy` | internal/library/bulk.go:97-114 | A tidied list is trimmed, has no blanks and no two labels that differ only in case, and keeps every key not dropped |
| `Text.DistinctFirsts` | internal/library/bulk.go:97-114 | A tidied list is the trimmed labels at the first place of each key, in their order |
| `IgdbLimiter.NoLostWakeup` | internal/catalog/types.go:144-204 | In every interleaving, whatever addresses waiters have, a waiter whose turn test holds is awake, has a closed channel or a cancelled context, or has an alarm armed for the current next slot |
| `IgdbLimiter.SomeoneEntitled` | internal/catalog/types.go:144-188 | When anyone is queued, someone waiting is entitled |
| `IgdbLimiter.QueueMoves` | internal/catalog/types.go:144-188 | Once the next slot has come, at most two steps of an entitled waiter end in its grant, or in its giving up if cancelled |
| `IgdbLimiter.SlotsApart` | internal/catalog/types.go:144-188 | Whatever addresses waiters have, any two granted requests are apart by an interval for each slot between them |
| `IgdbLimiter.InteractiveFirst` | internal/catalog/types.go:144-188 | Whatever addresses waiters have, a background request is granted only when no interactive one is queued |
| `IgdbLimiter.FirstInFirstOut` | internal/catalog/types.go:144-188 | In every run whose waiters have addresses of their own each lane grants in the order of joining, and whoever waits joined after everyone its lane has served |
| `IgdbLimiter.StatsAreGrants` | internal/catalog/types.go:161-170 | Over every run a lane’s statistics are the number of its grants and the time they waited, summed |
| `IgdbLimiter.OrderIffDistinct` | internal/catalog/types.go:116-156 | Lanes are first in, first out over all runs exactly when no two waiters are given one address, which pointers to an empty struct do not promise |
| `IgdbLimiter.Overtakes` | internal/catalog/types.go:116-156 | With one address for two waiters there is a run in which the later one is granted while the earlier one waits |
| `IgdbLimiter.OneAddressEntitlesAll` | internal/catalog/types.go:156-159 | With one address for all, the turn test holds for every waiter of the lane whose turn it is |
| `IgdbLimiter.StepKeeps` | internal/catalog/types.go:106-204 | Every step of arrivals, grants, sleeps, wakes and cancellations keeps the queues, alarms and grants consistent |
| `IgdbLimiter.RateLimiter.Enter` | internal/catalog/types.go:144-150 | Joining the lane and the first turn of the loop give the specified limiter and outcome |
| `IgdbLimiter.RateLimiter.Attempt` | internal/catalog/types.go:151-188 | One turn of the loop under the lock, waiters compared by address: the specified limiter and outcome |
| `IgdbLimiter.RateLimiter.Remove` | internal/catalog/types.go:190-199 | The first waiter with an equal address leaves the queue and the channel is replaced |
| `Cbor.DecodeIgnoresTail` | internal/webauthn/cbor.go:23-142 | The consumed bytes alone decode to the item with nothing left, and followed by any bytes leave those, despite the guards on the remaining length |
| `Cbor.ItemLocal` | internal/webauthn/cbor.go:65-142 | The same for an item at any depth: what follows it changes neither the item nor where it ends |
| `CborEncoding.RoundTrip` | internal/webauthn/cbor.go:65-142 | Decoding a shortest-form encoding, whatever follows, returns its value and the rest when integers fit int64 and the nesting fits the levels left, and fails otherwise |
| `CborEncoding.DecodableIffSupported` | internal/webauthn/cbor.go:23-142 | The values some input decodes to are exactly those nested at most 16 deep with int64 integers |
| `CborEncoding.DecodedIsSupported` | internal/webauthn/cbor.go:65-142 | Whatever is decoded is nested within the levels left, in range and of lengths a head can give |
| `CborEncoding.HeadRoundTrip` | internal/webauthn/cbor.go:29-63 | A shortest head is read back as its major type and argument |
| `CborEncoding.AnyHead` | internal/webauthn/cbor.go:29-63 | Heads of every width are read, shortest or not, and exactly those: reserved ones and those cut short are refused |
| `CborEncoding.SimpleSays` | internal/webauthn/cbor.go:131-142 | Of simple values exactly false, true, null and undefined are read, the last as null; tags never are |
| `Cbor.Item` | internal/webauthn/cbor.go:65-142 | Decoding terminates and returns a proper suffix of its input |
| `Cbor.Decoder.TakeHead` | internal/webauthn/cbor.go:29-63 | The decoder’s bytes advance past the head exactly as specified |
| `Cbor.Decoder.TakeItem` | internal/webauthn/cbor.go:65-142 | The decoder’s bytes advance past the item as specified and the depth is given back on every path |
| `Cbor.Decoder.TakeItems` | internal/webauthn/cbor.go:96-108 | The array loop gathers the specified values |
| `Cbor.Decoder.TakeEntries` | internal/webauthn/cbor.go:109-130 | The map loop gathers the specified entries, a later one under a repeated key winning |
| `Cbor.DecodeBytes` | internal/webauthn/cbor.go:23-27 | The first item and the bytes after it |
| `Passkey.StoredKeyDecodesAlike` | internal/webauthn/webauthn.go:109-113 | The key bytes sliced at registration decode, alone or followed by anything, to the key registration read in place, so login sees the same one |
| `Passkey.ExtensionsIgnored` | internal/webauthn/webauthn.go:91-115 | Replacing what follows the key changes nothing that is parsed |
| `Passkey.EcKeyReadBack` | internal/webauthn/webauthn.go:206-217 | A P-256 key encoded by its coordinates is read back as them exactly when they are 32 bytes each and on the curve, and refused otherwise |
| `Passkey.EdKeyReadBack` | internal/webauthn/webauthn.go:218-224 | An Ed25519 key encoded by its point is read back as it exactly when it is 32 bytes, and refused otherwise |
| `Passkey.RsaKeyReadBack` | internal/webauthn/webauthn.go:225-231 | An RSA key encoded by modulus and exponent is read back as them exactly when the modulus has 256 bytes or more and the exponent one to four, and refused otherwise |
| `Passkey.ParseInvertsAssembly` | internal/webauthn/webauthn.go:91-115 | Authenticator data put together from its parts is parsed back into them |
| `Passkey.ParseSays` | internal/webauthn/webauthn.go:91-115 | What is refused and what is read, byte by byte: lengths, the credential flag, the big-endian counter and the bounds of the id |
| `Passkey.AcceptedKeys` | internal/webauthn/webauthn.go:193-235 | A key is accepted exactly when it has every entry of one of the three kinds, whatever else it has |
| `ModulePreload.ListsExactlyReachable` | internal/http/assets.go:132-162 | For any import graph the list holds exactly the readable modules the entry reaches through readable ones, each once |
| `ModulePreload.ImportsComeFirst` | internal/http/assets.go:132-162 | A listed module’s readable import comes before it unless it leads back to the module |
| `ModulePreload.AcyclicOrder` | internal/http/assets.go:132-162 | Without cycles every module follows all its readable imports |
| `ModulePreload.ImportsSay` | internal/http/assets.go:145-158 | A module imports exactly its rooted specifiers and those that start with a dot, joined to its directory |
| `ModulePreload.Walker.Enter` | internal/http/assets.go:136-159 | The recursive visit leaves the specified seen set and order |
| `ModulePreload.ListEagerModules` | internal/http/assets.go:132-162 | The walk from the entry gives the specified list, and ends on any graph |
| `CatalogSearch.EscapesEachCharacter` | internal/catalog/store.go:30-38 | The three replacements escape each character on its own, none touching what another inserted |
| `CatalogSearch.PrefixPattern` | internal/catalog/store.go:149-149 | The escaped prefix pattern matches exactly the names starting with the query but for ASCII case |
| `CatalogSearch.ContainsPattern` | internal/catalog/store.go:151-151 | The escaped substring pattern matches exactly the names with the query somewhere |
| `CatalogSearch.RangeIsPrefix` | internal/catalog/store.go:198-200 | The index range holds exactly the names that start with the query and do not go on with U+10FFFF |
| `CatalogSearch.PatternIsRange` | internal/catalog/store.go:380-395 | On lower-cased text pattern and range select the same names, exactly when a name does not go on with U+10FFFF |
| `CatalogSearch.OneRowEach` | internal/catalog/store.go:380-395 | Both typeahead arms give a game the same tier, so their union has one row for it, whatever each arm scanned |
| `CatalogSearch.TierSays` | internal/catalog/store.go:387-390 | Tier 0 is the query itself, 1 a longer name that starts with it, 2 one with a later word that does, 3 any other |
| `CatalogSearch.TotalCountsGames` | internal/catalog/store.go:459-489 | The three eligible branches are disjoint and repeat nothing, so the count is the number of distinct games listed |
| `CatalogSearch.RowsDistinct` | internal/catalog/store.go:459-489 | Each listed game has one row, with its tier and branch: exactly those that match by name and pass the direct filter, or pass the other and match by an alias or through a parent that matches by name or alias |
| `ActivityFeed.FeedIsComplete` | internal/social/feed.go:25-96 | Following the cursor ends, and the runs behind the entries of all pages put end to end are the visible events: each in one entry of one page |
| `ActivityFeed.PagingCovers` | internal/social/feed.go:25-96 | The same from any cursor and for any limits, each page within its limit |
| `ActivityFeed.FeedLines` | internal/social/feed.go:76-85 | On every page all events of a run have one person, kind and day, and one list if of lists; a run of several is of a kind that is grouped, and neighbouring runs of such a kind differ in one of these |
| `ActivityFeed.PageFills` | internal/social/feed.go:25-96 | How much a page holds: 20 lines by default and at most 50, read from four times as many rows, and when its cursor is 0 |
| `ActivityFeed.FeedConservesMinutes` | internal/social/feed.go:72-83 | The minutes on all pages are the minutes of the visible events |
| `ActivityFeed.SummaryMeaning` | internal/social/feed.go:76-85 | An entry sums its events’ minutes and names each of their games once |
| `ActivityFeed.SummarySays` | internal/social/feed.go:76-85 | A line has the fields of its first event |
| `ActivityFeed.Feed` | internal/social/feed.go:50-96 | The loop that merges into the last entry in place gives the specified page and cursor |
| `LibraryPaging.PagingIsComplete` | internal/library/query.go:255-331 | Following next_cursor ends, and whatever the limits yields the whole list in order with no row missed or repeated |
| `LibraryPaging.CursorRoundTrip` | internal/library/query.go:102-120 | A printed cursor parses back to itself exactly when its timestamp is not empty and has no bar |
| `LibraryPaging.UnderAt` | internal/library/query.go:298-301 | Resuming below a row gives exactly the rows after it |
| `LibraryPaging.RefusedIff` | internal/library/query.go:266-276 | A cursor is refused exactly with another order or when it does not parse |
| `LibraryPaging.List` | internal/library/query.go:255-331 | Reading one row more than the page holds gives the specified page |
| `LibraryPaging.PageSays` | internal/library/query.go:255-331 | A page holds 60 rows unless told otherwise and at most 200, from the offset or after the cursor’s row, there or gone; the total comes with the first page, a cursor exactly when more follow |
| `RateLimit.AnswersAsIfNothingForgotten` | internal/auth/ratelimit.go:28-60 | With a clock that never goes back, a request is allowed exactly when fewer than the limit were allowed to its key within the window, of all that ever were: pruning and sweeping are invisible |
| `RateLimit.NeverMoreThanLimit` | internal/auth/ratelimit.go:28-60 | No key is allowed more than limit times within any interval as long as the window |
| `RateLimit.RateLimiter.Allow` | internal/auth/ratelimit.go:28-60 | The loops over keys and attempts leave the specified state and give the specified answer |
| `RateLimit.RateLimiter.Sweep` | internal/auth/ratelimit.go:38-42 | Dropping idle keys one by one, in any order, leaves the others as they were |
| `Social.BlockSeparates` | internal/social/follows.go:108-128 | In every reachable state a block in either direction means no follow or request in either and nothing to see at any level |
| `Social.RunKeepsInv` | internal/social/profile.go:302-315 | Every reachable state keeps keys, severed blocks, and no request waiting for an account open to the instance |
| `Social.CanSeeIsVisibleSql` | internal/social/social.go:91-137 | CanSee and the SQL predicate agree for every viewer, owner (known or not) and level, exactly except where an empty level would show a stranger something |
| `Social.FollowNeedsConsent` | internal/social/follows.go:13-96 | An accepted follow appears only when the one followed is open, accepts, opens up, or through an invite between the two |
| `Social.EveryFollowConsented` | internal/social/follows.go:13-96 | In every reachable state each follow goes back to such a step of the run and has stood ever since |
| `Social.RequestWaits` | internal/social/follows.go:63-128 | A waiting request goes on waiting exactly when the step is not an answer, a withdrawal, a block, an opening up or a deletion of either account |
| `Social.RequestThenAccept` | internal/social/follows.go:72-96 | Over any run of other steps a request can still be accepted, is a follow from then on, and until then shows nothing meant for followers |
| `Social.StaleFollow` | internal/social/follows.go:26-47 | A follow inserted on an older reading of blocks and level keeps the invariant exactly when it inserts nothing or the reading still holds |
| `Social.BlockDuringFollow` | internal/social/follows.go:26-47 | A block between the check and the insert of a follow leaves the two side by side |
| `Social.InviteUsed` | internal/social/invites.go:225-280 | An account made with an invite uses it up, the two follow each other, and the link makes no further account unless sign-up is open |
| `Social.InviteStaysUsed` | internal/social/invites.go:225-280 | In a reachable state a used invite stays used by the same account exactly when the step deletes neither that account nor the inviter’s |
| `Social.LinkWorksOnce` | internal/social/invites.go:225-280 | Over any run a second account is made with a token, by its link or anyhow where sign-up is not open, only after the account the link made, or its maker’s, was deleted in between |
| `Social.DeletedAccountFreesLink` | internal/social/invites.go:239-241 | Deleting the account a link made lets it work again exactly when it has not run out, was not revoked and its maker is not disabled |
| `Social.DeletionReopensInvite` | internal/social/invites.go:239-241 | Deleting the account an invite made lets the link make another |
| `Social.AnAdminRemains` | internal/social/admin.go:56-103 | No step but deleting an account leaves an instance that had an enabled admin without one |
| `Social.EditUserDoes` | internal/social/admin.go:56-103 | An edit sets what was asked and is refused exactly when it would leave no enabled admin where there was one |
| `Social.FollowDoes` | internal/social/follows.go:13-60 | A follow is kept as it is, or made accepted or waiting by the level of the one followed, or refused for the stated reason |
| `Social.UnfollowDoes` | internal/social/follows.go:63-70 | Unfollowing ends the follow or request and what it showed |
| `Social.AcceptDoes` | internal/social/follows.go:72-96 | Accepting turns exactly a waiting request into a follow, which then shows what is meant for followers |
| `Social.BlockDoes` | internal/social/follows.go:108-128 | A block ends follows both ways and hides everything from both |
| `Social.UnblockDoes` | internal/social/follows.go:130-148 | Unblocking ends the viewer’s own block and no other |
| `Social.VisibilityDoes` | internal/social/profile.go:302-315 | The level becomes the one asked for, with what each viewer sees afterwards; opening up accepts every waiting request |
| `Social.SeesWhat` | internal/social/social.go:91-137 | Who sees what at each level, spelled out |
| `Social.CreateUserDoes` | internal/social/invites.go:225-280 | Who may make an account, and everything it leaves |
| `Social.CreateInviteDoes` | internal/social/invites.go:57-85 | Who may make a link and how many, and the link made |
| `Social.RevokeInviteDoes` | internal/social/invites.go:159-184 | Only its maker or an admin revokes an unused link |
| `Social.Store.FollowUser` | internal/social/follows.go:13-60 | Follow leaves the specified tables and answers the specified status or error |
| `Social.Store.AcceptRequest` | internal/social/follows.go:72-96 | Accept turns exactly a pending request into a follow |
| `Social.Store.BlockUser` | internal/social/follows.go:108-128 | Block adds the block and ends follows both ways |
| `Social.Store.UpdateVisibility` | internal/social/profile.go:302-315 | The level changes, and opening up accepts the waiting requests |
| `Social.Store.AddUser` | internal/social/invites.go:225-280 | The account, the used invite and the mutual follows, or the specified refusal |
| `Social.Store.MaySee` | internal/social/social.go:111-137 | The checks in order decide as specified |
| `SearchRefresh.RefreshesBounded` | internal/catalog/service.go:167-210 | In every interleaving the refreshes that searches start fetch at most two at once and never two for one key; with the daily job’s fetch, which takes no slot and marks no key, at most three queries are fetched at once, and two share a key exactly when the job is fetching a key that a worker also fetches |
| `SearchRefresh.JobFetchesAgain` | internal/catalog/service.go:276-293 | The run from the start in which three queries are fetched at once and two of them are one and the same |
| `SearchRefresh.JobAsksWhenStopped` | cmd/cato/main.go:255-257 | The run in which the job asks after the service’s shutdown has finished |
| `SearchRefresh.JobRenewsRow` | internal/catalog/service.go:288-307 | The job renews the cache row it read exactly when its key has the prefix that all keys of searches have |
| `SearchRefresh.MarkedIsFreed` | internal/catalog/service.go:167-210 | From every reachable state the one owner of a marked key can unmark it by steps enabled in turn, so no query is blocked for good |
| `SearchRefresh.NothingStuck` | internal/catalog/service.go:196-202 | A worker giving back its slot never waits, and no channel is closed twice |
| `SearchRefresh.NoneAdmittedAfterShutdown` | internal/catalog/service.go:671-695 | After shutdown begins the live workers only become fewer |
| `SearchRefresh.StoppedMeansFinished` | internal/catalog/service.go:681-695 | stopped closes only when every worker has finished, and none runs from then on: what is fetched then is fetched by the job |
| `SearchRefresh.StepKeepsInv` | internal/catalog/service.go:167-210 | Each step keeps the slot and worker counts and the one owner of every marked key and channel |
| `SearchRefresh.CacheKeyRoundTrip` | internal/catalog/service.go:298-307 | A cache key parses back exactly when a plain query does not end like the editions flag |
| `SearchRefresh.NormalizedKeyRoundTrip` | internal/catalog/search.go:32-45 | So every key of a normalized query parses back, since normalizing leaves no colon |
| `SearchRefresh.Service.StartAsyncRefresh` | internal/catalog/service.go:167-210 | A call with no worker moving in between is exactly its admission steps |
| `SearchRefresh.Service.FinishRefresh` | internal/catalog/service.go:193-202 | A refresh’s way out is exactly its three steps |
| `SearchRefresh.Service.RefreshStaleQueries` | internal/catalog/service.go:276-293 | The job’s loop asks for the listed keys in order until its context ends, and is exactly its steps |

## Left out

- One user's library is modelled; other users appear as inserts that advance the shared id counters.
- Instants are seconds and days are day numbers: parsing and formatting of times is not part of this model, a text is given by what its parse yields.
- Letter case and white space are ASCII's; Unicode folding and normalisation are not part of this model.
- LibraryStore.Store.TidyPlatforms: bytes are those of the text in UTF-8; text that is not valid UTF-8 is not part of this model.
- Activity entries, cover jobs, notifications, review likes and the audit log that some operations also write.
- MergeCustom and deleting a catalog game.
- LibraryStore.Store.Index: the names of platforms that accompany an answer are not modelled; an entry holds their ids.
- The review, list and report operations, and the reporting and ranking queries.
- The repairs of old data: doubled tags (`internal/catalog/store.go:1192-1304`) and platforms kept as tags (`internal/catalog/platforms.go:84-164`).
- The preferences themselves: a step of a history says only that their row, which also holds the revision, exists.
- LibraryTables.DeleteRun: the store's playthrough deletion takes its sessions in ascending id order; what SQLite may do instead is covered by CascadeMoves and CascadeExact.
- Undo tokens, batch ids and invite tokens are parameters; their randomness is not modelled.
- The limiter's waiters: Go's choice among ready select cases is any order of steps.
- CBOR text is bytes; that a Go string need not be valid UTF-8 plays no part.
- Passkey: hashes, signatures, challenges and the curve check, which is a parameter.
- ModulePreload: scanning a file for imports and joining paths are given by the site; content hashes and the import map are not modelled.
- CatalogSearch: full-text hits and filters are arbitrary sets; the order and cut of pages, the SQL text and the planner are not modelled.
- ActivityFeed: the visible rows are given in descending order of id; titles and covers are not modelled.
- LibraryPaging: the rows that match a filter are given in the order asked for; base64 around the cursor's text and the offset-paged orders are not modelled.
- RateLimit: the lock, since each call is one step, and the HTTP middleware.
- Social: profile texts, user names and password resets; the effective sign-up mode and the clock are parameters.
- LibraryClient: the outbox of writes not yet sent, whose effects are shown on top of the copy, and the ETag that spares an unchanged answer.
- SearchRefresh: the fetch itself and its timeout; the contents and expiry of the query cache, so that any search may ask and the job may list any keys.
- SearchRefresh.Service.StartOther: nothing but tests starts a worker this way.
- SearchRefresh.MarkedIsFreed: that a fetch ends, by answer or timeout, is the step Release being enabled.
- HTTP handlers, mail, push, static serving and the other importers' clients: input and output.
