# Verification of the stateful cores of ownly

A Dafny model of the parts of the ownly backend where correctness depends on state that several requests
change: the collaboration engine, the shared-blob lifecycle, the folder forest and its permissions, the
storage migration worker, sign-in sessions, the rate limiter and the last-administrator guard, together with
two small algorithms (free display names, archive paths). `dafny verify dfyconfig.toml` checks all of it.

| files | what they model |
|---|---|
| `CollabTypes`, `CollabStore`, `CollabEngine` | sessions, ops and snapshots; the locked in-memory store as a class; what one attempt of join, heartbeat and submit computes |
| `CollabRuns`, `CollabTheorems` | any number of such attempts interleaved as read and commit steps, with the committed history kept beside the store; what holds of every run |
| `FileDelete`, `BlobLifecycle` | storage keys, purging an object store whose bulk operations may be unavailable; rows, objects, uploads and delete jobs interleaved statement by statement |
| `Forest`, `FolderTable`, `FolderWalk` | parent chains and cycles; creating, moving and trashing folders; the two subtree worklists |
| `Authz` | the permission catalog, the bottom-up resolver, the top-down readable list, and their agreement |
| `MigrationBatch`, `MigrationRun` | paged listings and one batch; the worker loop, crashes and resumption |
| `Sessions`, `RateLimiter`, `LastAdmin` | revocation, statement by statement, the rolling window, the administrator guard |
| `FileCopy`, `EpubPath`, `Text` | name search, path collapsing, and the text lemmas both rest on |
| `Wrappers`, `SetFacts` | result shapes, and the sizes of nested sets |

A plugin of the collaboration engine is a record of arbitrary functions, so its theorems hold for every
document kind. Delete jobs, uploads, revocations, token refreshes and the migration worker read and write in
separate database calls, and those are separate steps here; requests that the model runs in one step are named
under "Left out". State that the source updates in place is a class whose methods are proved against a function
of the old state; the theorems are about that function.

Properties one might expect that hold only under a condition, each with the failing run and the exact condition:

- A compare-and-swap save accepts any version of a session that has expired from memory, so two submits can
  both succeed with one number (`ExpiryLosesUpdate`). The theorems about a session's history therefore ask that
  no copy of that session is committed after it expired unseen; other sessions may. Agreement with the history
  survives a commit exactly under that condition (`CommitSafeIff`). What an unsafe commit stores still has the
  ops and numbering of the history exactly when no op was committed since the read (`CommitContentIff`), and
  matches it in full when there was no re-seed either (`ExpiryWithoutWritesIsHarmless`).
- A live session loses its file index entry exactly when a stale session of the same file is pruned
  (`PruneKeepsEntryIff`, `LiveSessionCanLoseItsEntry`) or another one is saved (`AccessKeepsAllIndexedIff`).
- An op is applied before it is numbered, so a replica that applies numbered ops agrees exactly when the
  plugin ignores numbers (`ReplaysAgreeIffSeqBlind`).
- A deduplicated upload looks for a row and inserts its own in two statements. A delete job can purge the shared
  key in between, and the new row has no blob (`StaleInsertLosesObjects`). The insert is safe on every further run
  exactly when no job has yet to purge the key and nothing that was found has gone (`InsertSafeIff`); inserts
  that find their key still referenced are (`GuardSuffices`).
- The cycle check of a folder move sees one owner's folders. The forest of all owners stays acyclic exactly
  when the folder is not on the target's whole chain (`MoveKeepsWholeForestIff`, `CrossOwnerMoveCanCycle`).
- The query behind the readable list ends exactly when no granted folder lies on a cycle (`QueryEndsIff`); an
  accepted move can put it on one (`CrossOwnerMoveMakesListingEndless`).
- The advertised retry delay is rounded down to whole seconds (`AdvisedWaitSufficesIff`); the comment in
  `backend/src/rate_limit.rs` promises the time until the oldest hit expires.
- A revocation loads the revoked list or the epoch and stores it in a later statement. Two that overlap can
  un-revoke a session (`OverlapUnrevokes`), overlapping bumps can lower the epoch (`OverlapLowersEpoch`). A
  session stays revoked on every run, overlaps included, exactly when it is on the list of every revocation
  under way (`RevocationIsIrreversible`), a version stays ended exactly when every bump under way stores more
  (`EndIsIrreversible`), and a token stays refused exactly when one of the two holds (`RefusedForeverIff`). Both
  hold of whatever is refused after revocations that ran one at a time (`OneAtATimeIsMonotone`).
- A password change or other epoch bump ends a session for good exactly when the session is revoked and on
  every list under way, or no refresh of it is under way and its tokens are below this bump's epoch and that of
  every other bump under way (`BumpEndsSessionsIff`); a refresh checked before it (`RefreshUnderWaySurvivesBump`)
  or an older bump stored after it (`StaleBumpRevives`) carries tokens over.
- Revoking one session by name leaves the others signed in unless it is the newest login, which ends all whose
  valid tokens carry the current epoch (`RevokeOneSparesOthersIff`).

## Model

| member | source | states |
|---|---|---|
| CollabTheorems.NoLostUpdate | backend/src/collab/engine.rs:163-264 | in every interleaving from an empty store that commits no copy of a session after it expired unseen, whatever happens to other sessions, the successful submits and committed ops of that session correspond one to one, its ops are numbered 1, 2, 3, ..., and while stored it carries the end of that history |
| CollabTheorems.CommittedOpsStay | backend/src/collab/store.rs:166-198 | over any run that commits no copy of a session after it expired unseen, no committed op of it is ever changed, moved or dropped from its history |
| CollabTheorems.FailedTaskWroteNothing | backend/src/collab/engine.rs:172-263 | a request that ended in an error, or ran out of its eight attempts, put no op into any session |
| CollabTheorems.OnlySubmitsAndReseedsWrite | backend/src/collab/engine.rs:56-160 | unless a copy that expired unseen is committed, joins and heartbeats, stale or not, never change ops, numbering or snapshot of a stored session, except a join that re-seeds an empty text |
| CollabTheorems.CommitSafeIff | backend/src/collab/store.rs:185-197 | a commit keeps versions, content and history of its session in agreement if and only if the session is new, still stored after the prune, or unchanged since it was read |
| CollabTheorems.CommitContentIff | backend/src/collab/store.rs:185-197 | what any accepted commit stores has the ops and numbering of the history if and only if no op was committed since the read, and its whole content if and only if also the change still leads to the prepared snapshot |
| CollabTheorems.RunRemembers | backend/src/collab/engine.rs:172-250 | over every run that commits no copy of a session after it expired unseen, each held copy of it is the end of the history as it was read, with the task's own op behind it |
| CollabTheorems.ExpiryWithoutWritesIsHarmless | backend/src/collab/store.rs:187-191 | when neither op nor re-seed was committed since the read, committing a session that expired unseen stores what the history says |
| CollabTheorems.ExpiryLosesUpdate | backend/src/collab/store.rs:187-191 | two submits that read the same session both succeed with the same number when the session idles out in between |
| CollabTheorems.RingInvariant | backend/src/collab/engine.rs:226-242 | retained ops are contiguous, end at the newest number, are the newest 1024 or all there are, and after any op since the last re-seed the snapshot number is the one before the first of them |
| CollabTheorems.OpsAfterExactIff | backend/src/collab/types.rs:105-111 | catching up from `b` gives the whole history after `b` if and only if `b` is not below the retained floor |
| CollabTheorems.ReplicaConverges | backend/src/collab/engine.rs:190-231 | a client with the server's data of a session at one point of a run reaches the server's data at a later point by applying the ops it missed, if in between the session was not re-seeded and no copy of it was committed after it expired unseen |
| CollabTheorems.ReplaysAgreeIffSeqBlind | backend/src/collab/engine.rs:214-229 | replaying numbered ops agrees with the server for all data and histories if and only if the plugin ignores sequence numbers |
| CollabRuns.StepKeepsInv | backend/src/collab/engine.rs:56-264 | every read, refused commit and successful commit of any task keeps one session, its held copies and its history consistent, unless it commits a copy of that session that expired unseen |
| CollabRuns.SubmitAgrees | backend/src/collab/engine.rs:190-242 | one submit attempt on a session that agrees with its history prepares exactly that history with one more op |
| CollabTheorems.SubmitRebasesOverUnseen | backend/src/collab/engine.rs:191-212 | what a submit commits is what the plugin made of the client's op when given the committed history after the client's base, as far as it is retained: all of it when the base is not below the floor |
| CollabTheorems.CommittedOpsAreRebased | backend/src/collab/engine.rs:191-229 | in every run, under the no-expiry condition, each committed op is what the plugin made of its author's submit when given the retained ops between the author's base and that op |
| CollabTheorems.RefusedAsAheadIff | backend/src/collab/engine.rs:181-188 | a participant's submit is refused whatever the plugin says if and only if its base lies beyond the committed history |
| CollabEngine.SubmitAnswers | backend/src/collab/engine.rs:172-214 | the refusals in order, the plugin's own errors, and the op and data that result |
| CollabEngine.JoinKeepsWrittenText | backend/src/collab/engine.rs:76-97 | a join replaces the snapshot exactly when the text is the empty string, a seed is given and the room is a document; it adds its own participant and leaves the rest alone |
| CollabTheorems.ReseedsReplaceEmptyTextOnly | backend/src/collab/engine.rs:76-84 | in every run, under the no-expiry condition, a step that gives a session a new base found the text of its committed data, in a document, to be the empty string, and puts a join's seed in its place |
| CollabEngine.BeatAnswers | backend/src/collab/engine.rs:113-145 | a heartbeat is refused exactly of those who do not take part |
| CollabRuns.ReadAnswers | backend/src/collab/engine.rs:56-75 | only a join makes a session, exactly when the index names none, with its seed and itself; a heartbeat or submit of a session that is gone is not found |
| CollabRuns.EighthRefusalConflicts | backend/src/collab/engine.rs:172-263 | a refused task tries again with the same request, and the eighth refusal is its last |
| CollabEngine.CompactRing | backend/src/collab/engine.rs:231-242 | the compaction loop drops from the front to the cap and raises the snapshot number as the recursive definition says |
| CollabEngine.CompactedRing | backend/src/collab/engine.rs:231-242 | for consecutively numbered ops the ring that results is the newest 1024 and its snapshot number is just below it, whatever smaller number it had |
| CollabEngine.JoinedForNinetySeconds | backend/src/collab/engine.rs:86-97 | who joined may beat and submit for 90 seconds after the last sign of life and no longer |
| CollabEngine.BeatTouchesOwnPresence | backend/src/collab/engine.rs:128-148 | a heartbeat merges presence key by key into its own participant and leaves everything else alone |
| CollabEngine.SubmitRenewsAuthor | backend/src/collab/engine.rs:216-247 | a submit keeps the set of participants, renews its author only, locks in a document its author's presence only, and shifts everyone's presence |
| CollabTypes.AfterSuffix | backend/src/collab/types.rs:105-111 | filtering numbered ops by number is taking a suffix |
| CollabStore.CollabStore.PruneMemory | backend/src/collab/store.rs:93-117 | the two pruning loops drop exactly the idle sessions with their file entries and the silent participants |
| CollabStore.CollabStore.Get | backend/src/collab/store.rs:123-132 | prunes, then looks the session up |
| CollabStore.CollabStore.GetByFile | backend/src/collab/store.rs:134-146 | prunes, then follows the file index |
| CollabStore.CollabStore.Save | backend/src/collab/store.rs:149-163 | stores the session one version up and indexes it |
| CollabStore.CollabStore.SaveCas | backend/src/collab/store.rs:166-198 | answers and leaves the store exactly as the compare-and-swap specification says, with its early exit before the prune |
| CollabStore.SwapGoesThroughIff | backend/src/collab/store.rs:166-198 | a compare-and-swap save goes through exactly when the copy has the version it names and the pruned store has that version or none, and what it stores then |
| CollabStore.PruneLeaves | backend/src/collab/store.rs:93-117 | a prune leaves the sessions active in the last hour, their participants seen in the last ninety seconds, and the index entries of files whose sessions it all leaves |
| CollabStore.IndexAgreesInEveryRun | backend/src/collab/store.rs:93-198 | over every run of reads, saves and prunes each index entry names a live session of that room kind and file, given that saves keep an id's file |
| CollabStore.InsertKeepsIndexIff | backend/src/collab/store.rs:192-196 | a save keeps the index right if and only if it does not move an indexed session to another file |
| CollabStore.LiveSessionCanLoseItsEntry | backend/src/collab/store.rs:101-107 | expiry of one of two sessions on a file drops the index entry of the other |
| CollabStore.PruneKeepsEntryIff | backend/src/collab/store.rs:99-107 | an indexed live session keeps its entry through a prune if and only if no session of its file goes stale there |
| CollabStore.AccessKeepsAllIndexedIff | backend/src/collab/store.rs:93-198 | an access leaves every live session indexed if and only if it saves nothing or the only live session of its file |
| CollabStore.AllIndexedInEveryRun | backend/src/collab/store.rs:134-146 | over every run of such accesses each live session is found by its file |
| FileDelete.FileKeysDisjoint | backend/src/files/handlers.rs:573 | storage keys of different files never own a common object |
| FileDelete.SameDepthDisjoint | backend/src/files/file_delete.rs:158-161 | of keys with equally many slashes none is a directory of another's objects |
| FileDelete.KnownKeysUnder | backend/src/files/file_delete.rs:70-100 | every generated object name belongs to the key, the root is among them, and there are 16 plus two per segment |
| FileDelete.KnownKeysAre | backend/src/files/file_delete.rs:68-100 | the generated names are the root, ten sidecars, five thumbnails and two names per segment, and no others |
| FileDelete.PaddedForm | backend/src/files/file_delete.rs:92-97 | segment numbers are padded with zeros to four digits |
| FileDelete.ObjectStore.CollectStorageKeys | backend/src/files/file_delete.rs:104-126 | the listing with the root added, or the known names when listing is skipped, fails or is empty |
| FileDelete.ObjectStore.DeleteKeys | backend/src/files/file_delete.rs:130-147 | removes exactly the given keys that do not resist deletion |
| FileDelete.ObjectStore.PurgeStorageKeys | backend/src/files/file_delete.rs:151-171 | what is left of the store, whichever of bulk deletion and listing work and whichever objects resist deletion |
| FileDelete.PurgeStaysUnderKey | backend/src/files/file_delete.rs:151-171 | a purge sets out to delete only objects at or under its key |
| FileDelete.PurgeCompleteIff | backend/src/files/file_delete.rs:102-171 | a purge leaves nothing behind if and only if it can find everything, or nothing beyond the known names exists, and no object of the key resists deletion |
| FileDelete.FindsAllIff | backend/src/files/file_delete.rs:52-66 | everything is found exactly with bulk deletion, with a listing of a file that has segments or is not of a listless kind, or when only known names exist |
| BlobLifecycle.PurgeSafety | backend/src/files/file_delete.rs:354-398 | however delete jobs, uploads and deduplicated uploads interleave, on every run no object of a row is removed while the row lives, if at the start no job has yet to purge that row's own key |
| BlobLifecycle.InsertSafeIff | backend/src/files/upload_finalize.rs:98-107 | a deduplicated row keeps on every further run all that was stored when its source was found, and all stored later, if and only if at the insert no job has yet to purge its key or has objects of it on its list, and nothing found has gone |
| BlobLifecycle.StaleInsertLosesObjects | backend/src/files/upload_finalize.rs:573-650 | the run in which find, delete, check, insert and purge leave a row without its blob |
| BlobLifecycle.GuardSuffices | backend/src/files/content_hash.rs:145-153 | if every insert under one key finds it still referenced, every such insert is safe, whatever happens under other keys |
| BlobLifecycle.StepSparesReferenced | backend/src/files/content_hash.rs:143-171 | no single step removes an object at or under the key of a row, trashed rows included, unless a job has yet to purge that very key |
| BlobLifecycle.UnreferencedStaysIff | backend/src/files/content_hash.rs:74-116 | a key without a row gets one exactly by the insert of an upload that made it or found it before |
| BlobLifecycle.SourcesAreReady | backend/src/files/content_hash.rs:74-116 | an upload can share a row exactly while that is not trashed and has a hash, and for a video only once its stream is ready |
| BlobLifecycle.StepKeepsClearIff | backend/src/files/file_delete.rs:268-278 | a key under purge stays unreferenced across every statement of every job and upload, except exactly the insert of a deduplicated row under it |
| BlobLifecycle.NoLeakAtQuiescence | backend/src/files/file_delete.rs:282-335 | after any run without storage or query failure in which every job and upload has finished, each stored object belongs to an existing row, stale inserts included |
| BlobLifecycle.StepKeepsCovered | backend/src/files/file_delete.rs:360-397 | at all times each stored object belongs to a row, to a job that has it still to delete, or to an upload under way, also when two jobs remove the last two rows of a key |
| BlobLifecycle.UnreferencedOnlyShrinks | backend/src/files/file_delete.rs:304-324 | nothing is written under a key that neither a row nor an upload of its own has, so what a purge has emptied stays empty |
| BlobLifecycle.FinishedPurgeLeavesNothing | backend/src/files/file_delete.rs:151-171 | when a job is done with a key nothing of it is left, if storage did not fail this purge and no insert shared this key while it was under purge |
| BlobLifecycle.UniqueUnreferenced | backend/src/files/file_delete.rs:360-381 | one purge per distinct unreferenced key, of the first row that has it |
| Forest.ReparentAcyclicIff | backend/src/files/folder_move.rs:66-76 | moving a folder keeps a forest acyclic if and only if the folder is not on the chain of its new parent |
| Forest.MoveCarriesSubtree | backend/src/files/folder_move.rs:88-96 | after a move whatever was at or below the folder keeps its chain up to it and gains the chain of the new parent; all other chains stay |
| Forest.ParentLower | backend/src/files/folder_move.rs:22-37 | every step up to a folder that is not above itself has fewer folders above it, so walks on a forest end |
| FolderTable.FolderTable.FolderIsAncestorOf | backend/src/files/folder_move.rs:12-39 | ends on a forest and answers true exactly when the first folder is on the chain of the second |
| FolderTable.FolderTable.MoveFolder | backend/src/files/folder_move.rs:43-115 | every refusal in the source's order, and the one parent pointer that changes |
| FolderTable.FolderTable.CreateFolder | backend/src/files/folders.rs:356-403 | name, access and duplicate refusals, or the one new row |
| FolderTable.MoveGoesThroughIff | backend/src/files/folder_move.rs:43-115 | which moves go through, in terms of rows, chain, write access and sibling names, what they change, and when access, a subfolder or a name is the reason of a refusal |
| FolderTable.CreateGoesThroughIff | backend/src/files/folders.rs:356-403 | which creations go through, in terms of name, parent, write access and the rows there, trashed ones included |
| FolderTable.NormalizedName | backend/src/files/folders.rs:280-299 | accepts exactly the names that are proper path segments of at most 255 bytes |
| FolderTable.ForestStaysAcyclic | backend/src/files/folder_move.rs:58-96 | every sequence of creations, moves and trashings keeps each owner's active folders a forest, names proper and siblings distinct |
| FolderTable.MoveKeepsWholeForestIff | backend/src/files/folder_move.rs:66-84 | the forest of all owners survives an accepted move if and only if the folder is not on the target's whole chain |
| FolderTable.CrossOwnerMoveCanCycle | backend/src/files/folder_move.rs:26-35 | two owners' folders can end up below each other |
| FolderWalk.CollectFolderContents | backend/src/files/folders.rs:121-159 | ends, returns every active file of the subtree exactly once and the number of proper descendant folders |
| FolderWalk.CollectZipEntries | backend/src/files/folder_download.rs:105-168 | lists the same files exactly once, each with the slash-joined names from the root down |
| FolderWalk.SamePathIff | backend/src/files/folder_download.rs:119-152 | two files get the same raw path if and only if they lie in the same folder under the same name |
| Authz.EffectOfRows | backend/src/authz/resolver.rs:276-293 | the loop with its early exit computes the order-free meaning of the grants |
| Authz.ResolveEffect | backend/src/authz/resolver.rs:267-294 | Deny if and only if some stored grant that applies to the resource denies; Allow if and only if one applies and none denies |
| Authz.AuthorizedIff | backend/src/authz/resolver.rs:315-347 | a request is let in exactly when no grant that bears on it denies, and one allows, or the user owns the active folder or file, or reading is asked for and a legacy share exists |
| Authz.BearsOnIff | backend/src/authz/resolver.rs:165-265 | a grant bears on a request exactly when it has not expired, names the user or a group of theirs, concerns the instance, the thing itself or an active folder fewer than 64 levels up, and gives the permission |
| Authz.SatisfiesIffGives | backend/src/authz/catalog.rs:90-134 | the rules from the asked-for side are those from the holder's side |
| Authz.AddGrant | backend/src/authz/resolver.rs:276-293 | what one more grant does: an allow never removes Allow, a deny never creates it |
| Authz.EffectOrderFree | backend/src/authz/resolver.rs:221-257 | only which grants apply matters, not their order or number |
| Authz.SatisfiesTransitive | backend/src/authz/catalog.rs:90-134 | implication between permissions is transitive |
| Authz.ImpliedEffects | backend/src/authz/catalog.rs:88-134 | a denied permission takes every permission it implies with it |
| Authz.ChainComplete | backend/src/authz/resolver.rs:87-106 | every active folder fewer than 64 levels up is on the resolver's chain |
| Authz.AncestorDenyRefuses | backend/src/authz/resolver.rs:165-347 | a deny on an ancestor within 64 levels refuses the folder and the files in it, to owners too, whatever is granted below |
| Authz.CollectDescendants | backend/src/files/access.rs:156-176 | wherever the recursive query ends, it finds level by level exactly the folders below active roots |
| Authz.QueryEndsIff | backend/src/files/access.rs:161-170 | the recursive query ends if and only if no active root lies on a cycle of active folders |
| Authz.CrossOwnerMoveMakesListingEndless | backend/src/files/access.rs:161-170 | after an accepted move across owners the query below the moved folder never ends |
| Authz.ReadableFolderSubtreeIds | backend/src/files/access.rs:103-152 | the granted folders and everything active below them, wherever the query ends |
| Authz.ListedIffSatisfiesRead | backend/src/files/access.rs:115-118 | the permissions the query spells out are those that imply reading |
| Authz.FastAgreesWithSlow | backend/src/files/access.rs:103-176 | up to 64 levels deep a folder resolves to Allow for reading if and only if it is listed or the instance grants it, and nothing denies it |
| Authz.AgreementIffWithin64 | backend/src/authz/resolver.rs:91-99 | at any depth the list and the resolver agree if and only if the listing does not rest solely on folders 64 or more levels up |
| MigrationBatch.MigrateNodeClientBatch | backend/src/admin/storage_migration.rs:254-391 | of the distinct keys of the page, skipped are those whose probe says no, failed those whose probe fails or, in a real run, whose rewrite fails, migrated the others; the failures name the first twenty failing keys in order |
| MigrationBatch.OutcomesByKey | backend/src/admin/storage_migration.rs:286-388 | the counted outcomes in terms of the probe and the rewrite alone |
| MigrationBatch.AfterOwnKey | backend/src/admin/storage_migration.rs:264-267 | continuing after a listed key gives exactly the keys that follow it |
| MigrationRun.CrashResumeAccounting | backend/src/admin/storage_migration_run.rs:526-743 | over any run with crashes between any two writes, resumptions, failing batches, failing saves and failing final writes, the persisted counters tally exactly the keys before the persisted cursors, and Complete means every key of every node not disabled was handled, in a migrate run without failure |
| MigrationRun.RunWorker | backend/src/admin/storage_migration_run.rs:526-742 | when nothing interrupts it the loop ends, nodes that are enabled are not passed over, Complete means all keys were handled, in a migrate run each one either needing nothing or rewritten, and it stops early only in a migrate run with a failure |
| MigrationRun.BatchKeepsLedger | backend/src/admin/storage_migration_run.rs:632-682 | counters and cursor move together: after a batch they again describe exactly the keys handled |
| MigrationRun.BatchProgress | backend/src/admin/storage_migration_run.rs:657-667 | every batch is counted and leaves fewer nodes or fewer keys on the current one |
| MigrationRun.PageSize | backend/src/admin/storage_migration_run.rs:582-594 | batches are of 25 keys, the last one of a node of at most that many |
| MigrationRun.EnabledNodesNeverPassed | backend/src/admin/storage_migration_run.rs:541-546 | a node that is enabled whenever a worker starts is never passed over |
| MigrationRun.CountersAddUp | backend/src/admin/storage_migration_run.rs:632-635 | migrated, skipped and failed add up to scanned |
| RateLimiter.PerKeyRateLimiter.Enforce | backend/src/rate_limit.rs:84-107 | prunes, then accepts or refuses, for one key only |
| RateLimiter.PerKeyRateLimiter.Peek | backend/src/rate_limit.rs:39-80 | reports remaining capacity exactly when a request at that instant would be accepted, and the same retry delay |
| RateLimiter.AtMostMaxPerWindow | backend/src/rate_limit.rs:84-107 | on every monotone run no half-open interval one window long holds more than the maximum of accepted requests of a key |
| RateLimiter.PruneKeepsExactlyLive | backend/src/rate_limit.rs:91 | pruning keeps exactly the accepted requests still inside the window |
| RateLimiter.AcceptedOnceOldestLeaves | backend/src/rate_limit.rs:92-105 | a full key accepts again if and only if its oldest hit has left the window |
| RateLimiter.AdvisedWaitSufficesIff | backend/src/rate_limit.rs:98-103 | waiting the advertised seconds suffices if and only if the remaining time is at most one second or a whole number of seconds |
| Sessions.RevocationIsIrreversible | backend/src/user_sessions.rs:171-240 | on every run, overlapping revocations included, every token of a session, whenever minted, is refused if and only if the session is revoked and on the list of every revocation under way |
| Sessions.EndIsIrreversible | backend/src/user_sessions.rs:89-101 | on every run a version stays below the epoch if and only if it is below it and every bump under way stores more |
| Sessions.RefusedForeverIff | backend/src/user_sessions.rs:142-167 | a token with a session id is refused on every run if and only if its session or its version meets the condition above |
| Sessions.StoreKeepsRefusalsIff | backend/src/user_sessions.rs:54-101 | a statement of a revocation keeps every refusal if and only if it stores neither a list that lacks a revoked session nor a lower epoch |
| Sessions.OverlapUnrevokes | backend/src/user_sessions.rs:171-176 | of two revocations that both load the list first, the second store un-revokes what the first one revoked |
| Sessions.OverlapLowersEpoch | backend/src/user_sessions.rs:89-101 | a bump that loads first and stores last lowers the epoch and revives a refused token |
| Sessions.OneAtATimeIsMonotone | backend/src/user_sessions.rs:171-240 | when revocations of a user have not overlapped, every store kept what was stored, and whatever is refused is refused for good |
| Sessions.UninterruptedRevoke | backend/src/user_sessions.rs:171-181 | left alone, the statements of a revocation list the session once and bump the epoch for the newest login |
| Sessions.BumpEndsSessionsIff | backend/src/user_sessions.rs:89-101 | once a bump stores its epoch, a session that has a token is over on all runs from there if and only if it is revoked and on every list under way, or no refresh of it is under way and every bump under way, this one included, stores more than the version of each of its tokens |
| Sessions.SessionEndsIff | backend/src/auth/handlers.rs:436-485 | a session that has a token is over on every run if and only if it is firmly revoked, or no refresh of it is under way and its tokens are firmly ended |
| Sessions.StaleBumpRevives | backend/src/user_sessions.rs:89-101 | a bump that was overtaken and stores last revives the tokens that the other one ended |
| Sessions.RefreshUnderWaySurvivesBump | backend/src/auth/handlers.rs:458-485 | a refresh that passed the epoch gate before a bump and mints after it carries its session over, unless the session is revoked by name |
| Sessions.RevokeOneSparesOthersIff | backend/src/user_sessions.rs:171-181 | revoking a session refuses its tokens, and leaves those of other sessions as they were if and only if it is not the newest login or no valid one of them carries the current epoch |
| Sessions.MintedTokens | backend/src/auth/handlers.rs:384-485 | tokens come only from logins and from refreshes that passed both gates, carry the current epoch and their own session, and are accepted unless that is revoked |
| Sessions.StepKeepsInv | backend/src/auth/handlers.rs:384-407 | session ids of tokens and pending logins stay apart and come from the login log, refreshes are of minted tokens, and versions stay within the epoch, on every step that keeps what was stored |
| Sessions.RunKeepsSids | backend/src/auth/handlers.rs:384-407 | all of this but the last holds on every run |
| Sessions.UserSessions.IsTokenSessionValid | backend/src/user_sessions.rs:142-167 | a token is valid exactly when its version is not below the epoch and its session is not listed, or, without a session, it is not older than the floor |
| Sessions.UserSessions.RevokeSessionId | backend/src/user_sessions.rs:171-181 | lists the session once, and bumps the epoch for the newest login |
| Sessions.UserSessions.RevokeAllExceptSession | backend/src/user_sessions.rs:191-240 | of the last 25 logins exactly one stays unrevoked: the asked-for one if it is among them and was not revoked, otherwise the newest that was not; the floor moves to its time; if there is none nothing changes, and nothing is ever un-revoked |
| LastAdmin.AnAdminAlwaysRemains | backend/src/admin/handlers.rs:435-664 | over every sequence of creations, updates and deletions, the database failing between any two writes, an enabled administrator remains |
| LastAdmin.CountOthersExact | backend/src/admin/handlers.rs:331-359 | the two counting queries together count every other active admin once |
| LastAdmin.UpdateKeepsAdmin | backend/src/admin/handlers.rs:480-530 | an update that stops after any number of its writes leaves an active administrator |
| LastAdmin.UpdateGuardExact | backend/src/admin/handlers.rs:480-511 | the guard refuses an update if and only if the writes it asks for would leave no active administrator |
| LastAdmin.DeleteGuardExact | backend/src/admin/handlers.rs:634-648 | deleting another user is forbidden if and only if that would leave no active administrator |
| LastAdmin.Accounts.UpdateUser | backend/src/admin/handlers.rs:435-603 | performs the planned writes in order, or a prefix of them if the database fails; on success the account has the new role and activation, the group follows a new role, and nobody deactivated themselves |
| LastAdmin.UpdateGoesThroughIff | backend/src/admin/handlers.rs:447-567 | which updates go through when the database does not fail |
| LastAdmin.Accounts.CreateUser | backend/src/admin/handlers.rs:388-412 | stores "pro" for "user" and the asked-for role otherwise, refuses unknown roles, puts exactly administrators into the admin group, and leaves at most the user without its group row if the database fails |
| LastAdmin.Accounts.DeleteUser | backend/src/admin/handlers.rs:607-664 | refuses oneself, missing users and the last administrator, otherwise removes the user and its group row |
| FileCopy.UniqueName | backend/src/files/file_copy.rs:88-116 | wherever it returns: the base name if free, otherwise the candidate with the smallest free index, found within one more candidate than names taken |
| FileCopy.DisambiguatedInjective | backend/src/files/file_copy.rs:118-125 | different indices give different names, none the base name |
| FileCopy.IndexGoesBeforeExtension | backend/src/files/file_copy.rs:118-125 | the index goes before what follows the last dot, unless that has a slash or backslash in it, and else to the end |
| FileCopy.FreeIndexExists | backend/src/files/file_copy.rs:103-115 | the search is sure to end while fewer names are taken than there are index values |
| FileCopy.SearchEndsIff | backend/src/files/file_copy.rs:108-115 | the search with its saturating index ends if and only if one of the index values is free |
| EpubPath.CollapseZipPathSegments | backend/src/document/epub_cover.rs:80-92 | the stack loop computes the collapse |
| EpubPath.CollapseNeverEscapes | backend/src/document/epub_cover.rs:80-92 | the result has no empty, "." or ".." segment |
| EpubPath.CollapseIdempotent | backend/src/document/epub_cover.rs:80-92 | collapsing twice changes nothing |
| EpubPath.CollapseComposes | backend/src/document/epub_cover.rs:105-116 | collapsing a base before joining makes no difference |
| EpubPath.ParentUndoesSegment | backend/src/document/epub_cover.rs:84-87 | ".." takes the segment before it away |
| EpubPath.DotsVanish | backend/src/document/epub_cover.rs:83 | "." and empty segments make no difference |
| EpubPath.ParentOfRoot | backend/src/document/epub_cover.rs:84-87 | ".." at the root stays there |
| EpubPath.CleanPathStays | backend/src/document/epub_cover.rs:80-92 | a path of clean segments is left alone |
| EpubPath.JoinPlain | backend/src/document/epub_cover.rs:105-116 | a plain reference resolves below its base, and with a leading ".." one step up from it |
| EpubPath.NormalizedIs | backend/src/document/epub_cover.rs:74-76 | leading slashes are cut, then each backslash of the rest becomes a slash |
| EpubPath.FragmentCut | backend/src/document/epub_cover.rs:105-116 | the fragment or query is cut off at its first sign |
| EpubPath.JoinComposes | backend/src/document/epub_cover.rs:105-116 | a join depends on its base only up to collapsing, and is collapsed |
| EpubPath.PackageResolvesToItself | backend/src/document/epub_cover.rs:95-116 | a package file named relative to its own directory resolves to itself |
| Text.SplitJoin | backend/src/document/epub_cover.rs:82-91 | splitting undoes joining on slash-free segments |
| Text.JoinSplit | backend/src/document/epub_cover.rs:82-91 | joining undoes splitting on every text |
| Text.DecimalInjective | backend/src/files/file_copy.rs:121 | different numbers print differently |

## Left out

- The Redis side of the collaboration store: its version check and its write are two operations, so the no-lost-update theorems are for the in-memory store.
- The retry loops of join, heartbeat and submit are steps of a transition system rather than methods, because other tasks step between their reads and commits; the hub, the WebSocket and the HTTP wrappers do not appear.
- The two concrete plugins and their text transforms: a plugin is any record of functions. Display colours and the flattened session views are not modelled.
- One session per file is not claimed: two first joins may race and create two.
- Versions and sequence numbers are unbounded; the source saturates at 64 bits.
- Seconds are read once per store operation; the source reads the clock up to twice.
- The mime table behind the skip-listing decision is a parameter, as are progress counters and the cosmetic object count.
- Staging areas, resumable parts, striped objects, background encoders that outlive their row, and content replacement.
- Purges by key outside delete jobs, none of which asks for other rows of the key: ingest cancellation (`backend/src/files/handlers.rs:1139`), failed and cancelled encodes (`backend/src/hls/encode_job.rs:577`, `backend/src/hls/encode_job.rs:1048`) and the sweep of failed encodes (`backend/src/temp_cleanup.rs:157-190`), which can take the objects of a ready row that shares the key of a row whose rebuild failed. The safety theorems are about delete jobs.
- File ids are never reused.
- Restoring trashed folders and permanent folder deletion; renames; shares.
- Folder authorization on a move or create is a parameter of the operation; the case folding of names is a parameter; a name reaches the model already trimmed.
- Checks and writes of folder moves, folder creation and administrator updates are one request at a time.
- Archive path sanitizing after the raw path, the contents of archives, and the job registries.
- Query results come in no particular order; the readable list is a set where the source sorts and removes duplicates.
- Permission strings are catalog values, as stored by the grant endpoint; the 60-second cache of the readable list does not appear.
- The server-side migration batch, log lines, heartbeats, time-outs and the stale-run sweep; two workers on one run; objects that come or go during a run. Terminal statuses are not claimed to be final, since finishing has no status guard.
- Sessions.UserSessions.RevokeAllExceptSession: logins are ordered by creation, without equal timestamps.
- The revoked list that a revoke-others call prepares is any extension of the loaded one in the step system; which one it is, is the contract of the method. Tokens without a session id are only checked, nothing is proved of their floor over time.
- A token counts as minted when the epoch for it is loaded, after which nothing shared is read for it.
- Forwarded client addresses and the lock of the rate limiter.
- Removing group members through the group screens, registration, and requests that interleave inside the administrator guard.
- EPUB XML, ZIP and image decoding.
