# Verified model of the file lifecycle service

A Dafny model of the file lifecycle engine: initiation of single and multipart uploads, completion, abort,
scan results, download authorization, deletion and the cleanup of expired uploads, together with the
compare-and-set table of files, the transactional outbox and the object store they run against.

`dafny verify dfyconfig.toml` checks the whole project.

## How it is organized

The same operations appear twice, and the two are tied together.

* **The protocol** (`Model`, `Protocol`). A `World` holds the table, the outbox, the objects, the multipart
  sessions and any number of calls in flight, each with its local row copy and a program counter. A `Label` is one
  atomic step: a read, one storage call, one transaction, a client upload, a crash. Storage calls are done, lost
  (took effect, error reported) or not done; commits likewise. `Apply` is the step function, `IsRun` and `After`
  are runs. `Planned` and `CasVersion` hold what each operation would write and the version it compares with,
  which for completion, scan report and the first phase of a deletion is the caller's and not the one read.
* **The service** (`Stores`, `Service`). Classes with the operations of `Service`, `SQLRepository`,
  `Transactor.Within` and the storage client as methods that update fields step by step. A ghost trace records
  the labels each method goes through; `FileService.Valid()` says that the trace is a serial run of the protocol
  ending in exactly the state of the stores, and every operation's contract says that it appended a call that took
  only the steps its surroundings answered (`Follows`) and ended with the response it returns. What is proved of
  serial runs thereby holds of the class (`StoresAreSound`). Besides, every contract says case by case what is
  answered and what the stores then hold, in terms of the arguments and the stores before (`Answers`), without the
  protocol's functions.
* **Properties of runs.** `Invariants` and `History`: every interleaving, whatever versions callers expect.
  `Serializability` and `Lifecycle`: runs in which no write goes through on a stale snapshot, shown to include
  every run of callers that never present a version above the one read, and every serial run. `Sessions`,
  `Agreement`, `Scope`, `NonInterference`, `Uploads`: sessions, objects, tenants, parts. `Scenarios`, `Limits`: runs
  built from the empty state that show where the guarantees end. `Progress`: calls that go through to their end.
* **The algorithms.** `Completion` (part validation and order), `Parts` (part count on wrapping 64-bit integers),
  `ObjectKeys`, `Ordering` and `Listing` (pages and cleanup batches), `Text` (the string functions of Go's
  standard library).

## What the code does not promise

Places where the code does less than its operation names suggest. The model follows the code; each comes with
its exact condition and with runs from the empty state, or inputs, that show it.

* `expired`, `deleting` and `deleted` are not final: a completion that finds the object takes the row back to
  `ready` (`internal/file/service.go:347-361`), and a scan report computed from an earlier ready row does so without
  a look at the object if it presents the version of the deleted one. Exactly when:
  `Lifecycle.FinalRowIsReopenedExactlyBy`, `Lifecycle.HonestRunsLeaveFinalBy`, `Lifecycle.FinalIsLeftExactlyBy`.
* A caller that presents a version above the one read can overwrite an intervening commit, an infected result for
  instance. Exactly when: `Serializability.FreshExactlyWhenNotAhead`, `Lifecycle.InfectedIsLeftExactlyBy`.
* Cleanup gives storage back before its version test, a completion commits some time after its stat, and parts can be
  assembled over an object that is already relied on. So "ready implies stored" holds in serial runs
  (`Agreement.ReadyRowsHaveTheirObject`) and not in all interleavings. Exactly when:
  `Agreement.StepAgreesExactlyWhen`, `Agreement.RunAgreesExactlyWhen`.
* An initiate that crashes while it holds a session, or whose abort fails, leaves the session open with nobody to
  close it. Exactly when: `Sessions.StepOwnedExactlyWhen`, `Sessions.NoOrphansExactlyWhen`. Deleting a pending multipart upload
  does not close its session either (`Limits.DeletedUploadKeepsItsSession`); aborting it does (`Sessions.AbortedMeansClosed`).
* The storage client cleans part tags a second time. The tag sent is the validated one exactly when the latter has
  no white space at its ends (`Completion.WireTagIsValidatedTag`); a quoted blank passes validation and is sent empty
  (`Completion.QuotedBlankReachesTheWireEmpty`).

## Model

| member | source | states |
|---|---|---|
| `Serializability.HonestRunsAreSerializable` | internal/file/service.go:260-378 | For any interleaving and any failures, if no caller presents a version above the one read, rows and outbox equal those of the committed operations run atomically one at a time in commit order |
| `Serializability.FreshRunSerializes` | internal/file/repository.go:83-93 | The same for every run in which each effective write replaces the row it was computed from |
| `Serializability.HonestRunIsFresh` | internal/file/service.go:369-375 | A caller that never presents a version above the one read never overwrites a row it has not seen |
| `Serializability.FreshExactlyWhenNotAhead` | internal/file/service.go:468-475 | In any interleaving an effective write replaces the row it was computed from if and only if the presented version is not above the version read |
| `Serializability.SerialRunIsFresh` | internal/file/service.go:500-516 | Calls that run one after the other, crashes included, never write over an unseen row, whatever version they present |
| `Serializability.OnlyCommitsChangeTables` | internal/database/transaction.go:17-35 | Steps that are not an effective commit leave table, outbox and history as they were |
| `Invariants.StepKeepsInv` | internal/file/service.go:58-533 | Every step from every consistent state keeps: histories legal, outbox the image of the histories, keys unique, every call's local copy a row that existed |
| `Invariants.RunKeepsInv` | internal/file/service.go:58-533 | So does every run, and histories only grow |
| `Invariants.UpdatedRow` | internal/file/repository.go:83-84 | Although an update writes twelve columns from a possibly stale copy, the row it leaves is the local copy with the next version |
| `Model.UpdateFromSnapshot` | internal/file/repository.go:83-84 | Rewriting the columns from a copy with the same declared facts changes no fact |
| `Model.PlanKeepsFacts` | internal/file/service.go:284-286 | No operation plans to change a declared fact, every plan leaves pending, and only pending rows can expire |
| `Model.DraftHolds` | internal/file/service.go:163-186 | The row an initiation would insert has the trimmed scope, key and content type of the request, its cleaned name, its size and lower-cased checksum, the caller as owner and author, the configured bucket and the expiry of the session; only a granted, authenticated caller gets one |
| `History.OutboxIsHistory` | internal/file/service.go:534-549 | In every reachable state a file's events are exactly versions 1 to the row's version in order, event k telling field by field the row as it stood at version k, and no event exists without its row |
| `History.EveryRowVersionHasItsEvent` | internal/file/service.go:369-375 | Whatever row the table holds at some moment, the event at the place its version names tells that row field by field, then and in every later state |
| `Model.ProjectionTells` | internal/file/service.go:534-548 | The event written for a row is the one that carries its status, scan status, scope, object, size, checksum, upload plan, version, times and authors, and neither session id nor idempotency key |
| `History.EventsAreUniqueAndOrdered` | internal/file/service.go:534-549 | No two events carry the same file and version; a file's events stand in version order in the outbox |
| `History.DeclaredFactsNeverChange` | internal/file/repository.go:83-84 | In every run size, checksum, mode, session, part size, part count, expiry, key and scope keep their inserted values, no row disappears and versions never fall |
| `History.PendingIsVersionOne` | internal/file/service.go:284-286 | In every interleaving a row is pending exactly at version 1, exactly one commit takes it out of pending, expired occurs only at version 2, and neither was scanned |
| `History.DownloadProvenance` | internal/file/service.go:438-445 | When a download URL is issued, the last commit to the row read was a clean scan report or a completion with scanning off |
| `History.ScanningEverywhere` | internal/file/service.go:361-366 | If every instance requires scanning, no row is ever skipped and every downloadable row was reported clean |
| `History.CompletionsAgree` | internal/file/service.go:357-366 | In every reachable history a completion was committed with the declared checksum presented, for an object of the declared size whose checksum metadata is empty or the declared one, and left scan pending or skipped as configured |
| `History.ExpiredWasOver` | internal/file/service.go:302-320 | In every reachable history a row was expired by a cleanup only, and its upload time was over |
| `History.VerdictsAreReported` | internal/file/service.go:465-475 | In every reachable history a scan report was computed from a ready row that awaited it and left its verdict |
| `History.ReplayFindsTheFile` | internal/file/service.go:128-135 | An initiation whose trimmed scope and key are those of a row finds that row: single goes on to sign for it, multipart returns it or is refused; tables, events and sessions do not change |
| `History.IdempotentInitiation` | internal/file/service.go:84-106 | After any run of other calls a later initiation with the trimmed scope and key of a row finds the same file: a multipart replay is answered with it or refused, a single one goes on to sign for it; no second row ever takes the key |
| `History.IdempotentAnswer` | internal/file/service.go:84-90 | Carried to its end, whatever happens meanwhile, a single replay is answered with a URL for that file or with an error of the signer |
| `History.OneCreationEventPerKey` | migrations/postgres/000007_application_scope_contract.up.sql:4 | At most one version-1 event exists per tenant, application and key |
| `Lifecycle.FreshRunKeepsChained` | internal/file/repository.go:83-93 | In runs without stale writes every commit of a file was computed from the version right before it |
| `Lifecycle.InfectedLife` | internal/file/service.go:438-440 | In such a history the step from infected towards a downloadable row is a deletion mark followed later by a completion |
| `Lifecycle.InfectedIsSticky` | internal/file/service.go:465-475 | With callers that never present a version above the one read, if a download that begins after an infected result is given a URL, a deletion mark was committed right after the result and a completion after the mark |
| `Lifecycle.InfectedIsLeftExactlyBy` | internal/file/service.go:465-470 | Whatever versions callers present, a write that takes effect on an infected row marks it for deletion if and only if a delete call makes it, and any other such write presents a version above the one read |
| `Lifecycle.FinalRowIsReopenedExactlyBy` | internal/file/service.go:347-361 | From an expired, deleting or deleted row a call plans a ready one exactly when it completes, presents a version of at least 1 and the stat agrees; otherwise only a deletion moves it, and a deleted row not at all |
| `Lifecycle.HonestRunsLeaveFinalBy` | internal/file/service.go:347-375 | With callers that never present a version above the one read, the commit after an expired, deleting or deleted one is a plain completion to ready whose stat agreed, or the next step of a deletion |
| `Lifecycle.FinalIsLeftExactlyBy` | internal/file/service.go:369-375 | Whatever versions callers present, a write on such a row was computed from it if and only if the presented version is not above the version read, and is then one of these; the others are completions, scan reports and deletions that present a higher version |
| `Lifecycle.RetryableDelete` | internal/file/service.go:494-532 | From a row neither deleting nor deleted that no unfinished call works on, through any failures, crashes and retries of deletes, the commits are none, the mark, or mark and removal; storage is asked to delete only after the mark; a call begun in the run reports success only after both |
| `Lifecycle.ReadyFileIsDeletedInTwoCommits` | internal/file/service.go:494-532 | The same for a ready file in any reachable state with no call under way, deletes coming one after the other with any versions |
| `Lifecycle.FurtherDeletesChangeNothing` | internal/file/service.go:494-496 | Once the deletion is through, further deletes leave the row as it is |
| `Progress.RetriedDeleteGoesThrough` | internal/file/service.go:515-532 | From any reachable state, one more admitted delete call on a deleting row, all answers good, removes the object, makes the row deleted one version on and returns it |
| `Progress.DeleteGoesThrough` | internal/file/service.go:500-532 | A first delete at the current version does so in one call, two versions on |
| `Lifecycle.SerialDeleteIsFresh` | internal/file/service.go:494-532 | Deletions tried one after the other meet the condition of RetryableDelete whatever versions they present |
| `Sessions.StepKeepsRegistered` | internal/file/service.go:145-160 | Every session of a call or row is known to storage and has one holder among the calls or one row; a call that failed to insert shares its session only with its own row |
| `Sessions.ExpiredMeansClosed` | internal/file/service.go:303-320 | In every run an expired multipart row has no open session and a session is recorded in at most one row |
| `Sessions.LoserClosesOnlyItsOwn` | internal/file/service.go:156-158 | An initiate whose insert failed closes its own session and no other; nobody else holds it and no other file records it |
| `Sessions.StepOwnedExactlyWhen` | internal/file/service.go:145-160 | In any interleaving, while every open session is held by an initiate or recorded in a row, the next step keeps that so if and only if it does not open a session behind an error, does not give up the abort of an open unrecorded one, and is no crash of a holder of such a one |
| `Sessions.NoOrphansExactlyWhen` | internal/file/service.go:145-160 | Along a whole run every open session has an owner if and only if every step is of that kind |
| `Sessions.OpenSessionsAreAccountedFor` | internal/file/service.go:145-160 | After such a run every open session has at most one holder and at most one row, at least one of the two, and that row is not expired |
| `Sessions.AbortedMeansClosed` | internal/file/service.go:281-291 | In every run, once an abort or the cleanup of a multipart upload has committed, its session is closed, whatever becomes of the row |
| `Sessions.DeletionLeavesSessions` | internal/file/service.go:518-520 | No step of a delete call touches a session |
| `Agreement.OwnKeys` | internal/file/service.go:94-95 | Two rows never share an object key |
| `Agreement.SerialRunsAgree` | internal/file/service.go:303-320 | Serial runs with failures and crashes anywhere and client uploads at any moment keep: ready rows have their object, and a completion about to commit has seen it |
| `Agreement.ReadyRowsHaveTheirObject` | internal/file/service.go:347-375 | In serial runs every ready row has a stored object of its declared size whose checksum metadata is empty or the declared one |
| `Agreement.StepAgreesExactlyWhen` | internal/file/service.go:303-320 | In any interleaving, while every ready row has its object, the next step keeps that so if and only if it does not remove the object of a ready row, does not assemble one that does not fit a ready row, and does not make a row ready whose fitting object is not stored at that moment |
| `Agreement.RunAgreesExactlyWhen` | internal/file/service.go:347-375 | Along a whole run ready rows have their objects if and only if every step is of that kind |
| `Limits.GuessingCallerWipesOutInfection` | internal/file/service.go:465-475 | From any reachable state with a file awaiting its scan: a run in which a caller presenting version read plus one overwrites an infected result and the file becomes downloadable |
| `Limits.InfectionCanBeWipedOut` | internal/file/service.go:465-475 | Such a run exists from the empty state |
| `Limits.ReadyRowCanBeStranded` | internal/file/service.go:302-320 | A run from the empty state in which a completion between listing and removal leaves a ready row without its object |
| `Limits.InspectedObjectCanBeRemoved` | internal/file/service.go:353-375 | One in which cleanup removes the object of a pending row after a completion has inspected it, and the completion commits |
| `Limits.ReadyObjectCanBeReplaced` | internal/file/service.go:254-257 | One in which parts are assembled over the object of a row that has become ready in the meantime |
| `Limits.ExpiredComesBack` | internal/file/service.go:347-361 | A run from the empty state that takes an expired row to ready |
| `Limits.DeletingComesBack` | internal/file/service.go:347-361 | One that takes a deleting row to ready |
| `Limits.DeletedComesBack` | internal/file/service.go:347-361 | One that takes a deleted row to ready |
| `Limits.StaleReportRevivesDeleted` | internal/file/service.go:465-475 | One in which a clean report computed from the ready row and presented at the version of the deleted one makes the file downloadable although its object is gone |
| `Limits.CrashedInitiateOrphans` | internal/file/service.go:145-150 | A run from the empty state that leaves an open session without an owner |
| `Limits.DeletedUploadKeepsItsSession` | internal/file/service.go:494-532 | One that deletes a pending multipart upload and leaves its session open |
| `Scope.StoredScopeIsTrimmed` | internal/file/service.go:163-165 | Stored tenant and application ids have no white space at their ends |
| `Scope.FoundRowIsOwn` | internal/file/service.go:551-556 | The tenant test trims its argument and the lookup does not, yet a row that is found belongs to the user's tenant |
| `Scope.UsersStayInTheirTenant` | internal/file/service.go:551-556 | In every run every row a user's call returns, works on or has changed belongs to the user's tenant |
| `Scope.ReadsIgnoreOtherTenants` | internal/file/repository.go:37-52 | What a user's call reads and does next is the same for any two tables that agree on the user's tenant |
| `NonInterference.CallsIgnoreOtherTenants` | internal/file/service.go:551-556 | A user's call run by itself, failures and crashes included, goes the same way in any two reachable states that look the same to the user's tenant: same response, same rows, objects and sessions of the tenant afterwards, if the ids it draws are new in both |
| `Scope.ListingIgnoresOtherTenants` | internal/file/repository.go:53-78 | So are the pages it lists |
| `Uploads.StoredPartCountIsTrue` | internal/file/service.go:120-141 | Every multipart row the table ever held declares a legal part size and the true number of parts of its size |
| `Uploads.CompletionCoversTheFile` | internal/file/service.go:237-256 | Whenever a session is about to be completed, in any interleaving, the list sent is parts 1 to the part count in order with the caller's cleaned tags, and these parts cover the declared size |
| `Completion.ValidateParts` | internal/file/service.go:240-253 | The loop accepts exactly lists whose numbers are in range and distinct and whose tags are not empty once cleaned, and returns them sorted, otherwise an invalid-request error |
| `Completion.TagIsUnquoted` | internal/file/service.go:243 | A tag comes out bare whether it was sent bare or quoted, with or without white space around it |
| `Completion.AcceptedListIsAssembled` | internal/file/service.go:237-253 | Accepted numbers are a permutation of 1 to the part count, entry i is part i+1 with its cleaned tag, and the 32-bit truncation of the length admits no list of wrong length |
| `Completion.OrderDoesNotMatter` | internal/file/service.go:242-253 | Verdict and list sent do not depend on the order of the input |
| `Completion.Pigeonhole` | internal/file/service.go:244-253 | Strictly ascending numbers from 1 to n are at most n, and when n, entry i is i+1 |
| `Completion.WireTagIsValidatedTag` | internal/objectstorage/storage.go:114-117 | The second cleaning keeps the validated tag if and only if that tag has no white space at its ends |
| `Completion.QuotedBlankReachesTheWireEmpty` | internal/objectstorage/storage.go:114-117 | A quoted blank passes validation and is sent as an empty tag |
| `Parts.CountTestIsExact` | internal/file/service.go:113-123 | On wrapping 64-bit integers the test accepts exactly when size is positive and the true ceiling is 1 to 10000; the computed count is that ceiling and the 32-bit cast keeps it |
| `Parts.PartsTile` | internal/file/service.go:120-141 | Parts 1 to the count tile the file: every byte lies in exactly one part, the last is 1 to part-size bytes long |
| `ObjectKeys.DecodeObjectKey` | internal/file/service.go:94-95 | File id and cleaned name can be read back from the key, all-slashes names and slashes in tenant or application included |
| `ObjectKeys.DistinctFilesDistinctKeys` | internal/file/service.go:137-138 | Keys of files with different ids differ |
| `Text.TrimNormalizes` | internal/file/service.go:59-64 | Trimming yields a trimmed string, and a string is its own trimming exactly when it is trimmed |
| `Text.TrimCutsEnds` | internal/file/service.go:59-64 | Trimming takes away what is cut from both ends and nothing else |
| `Text.TrimCutsAll` | internal/file/service.go:59-64 | What consists of nothing else is trimmed to nothing |
| `Text.AsciiSpace` | internal/file/service.go:59-64 | Among the ASCII characters white space is these six |
| `Text.LowerMaps` | internal/file/service.go:63 | Lower-casing maps the capitals to their small letters and keeps the rest |
| `Text.BaseShape` | internal/file/service.go:61 | A cleaned file name has no slash and is not empty, or is the single slash |
| `Text.BaseIsLastComponent` | internal/file/service.go:61 | A cleaned file name is the last component of the path, trailing slashes aside |
| `Ordering.SortedIsUnique` | internal/file/repository.go:76 | There is one strictly ordered sequence of given rows |
| `Listing.PagesPartition` | internal/file/repository.go:53-78 | For a fixed table, any filter and accepted page size, pages 1 to ceil(total/size) together are exactly the rows of the scope that pass the filter, newest first and by descending id, none twice; every page answers the same total |
| `Listing.OffsetIsExact` | internal/file/repository.go:75 | The offset product does not wrap for a page that begins within 64-bit range |
| `Listing.DrainEmptiesTheQueue` | internal/file/service.go:295-328 | With no failures and a fixed clock, k cleanup runs of batch b leave the queue without its first k*b entries, max(0, N-k*b) of them |
| `Listing.RunsVisitInOrder` | internal/file/repository.go:94-98 | Run k+1 takes the next b uploads in (expiry, id) order, so each is visited once |
| `Listing.QueueHolds` | internal/file/repository.go:94-98 | An upload is due exactly when it is pending, has an expiry, and that is not after the given time |
| `Listing.QueueIsOrdered` | internal/file/repository.go:94-98 | Due uploads stand by expiry, then by id |
| `Listing.BatchHolds` | internal/file/repository.go:94-98 | A batch is the front of the queue, all of it or as much as the limit allows, every one pending and due |
| `Stores.SQLRepository.GetByKey` | internal/file/repository.go:45-52 | The one row with this key in this tenant and application, else none |
| `Stores.SQLRepository.Insert` | internal/file/repository.go:79-82 | Inserts exactly when id and key are free |
| `Stores.SQLRepository.Update` | internal/file/repository.go:83-93 | Writes the columns and the next version exactly when id, tenant, application and version match; otherwise nothing |
| `Stores.SQLRepository.AddOutbox` | internal/file/repository.go:26-29 | Appends the event to the open transaction |
| `Stores.SQLRepository.List` | internal/file/repository.go:53-78 | The requested slice of the matching rows, newest first, and the number of all of them |
| `Stores.SQLRepository.ListExpiredUploads` | internal/file/repository.go:94-98 | Lists only pending uploads whose expiry is not after the given time, in (expiry, id) order, and all of them unless the limit is reached |
| `Stores.SQLRepository.WithinInsert` | internal/database/transaction.go:17-35 | Row and event are inserted together, exactly when begin, both statements and commit take effect and id and key are free, or not at all; success is reported only then |
| `Stores.SQLRepository.WithinUpdate` | internal/database/transaction.go:17-35 | Row and event are written together, exactly when begin, both statements and commit take effect on the expected version, or not at all; a missed version is reported as stale |
| `Stores.SQLRepository.Commit` | internal/database/transaction.go:31-34 | A commit takes effect whole or not at all, even when it reports an error |
| `Stores.Sort` | internal/file/repository.go:76 | Returns the strictly ordered sequence of the rows |
| `Stores.ObjectStore.Remove` | internal/objectstorage/storage.go:90-95 | Removes this object and no other |
| `Stores.ObjectStore.InitiateMultipart` | internal/objectstorage/storage.go:96-102 | Opens a fresh session that carries the checksum metadata |
| `Stores.ObjectStore.AbortMultipart` | internal/objectstorage/storage.go:122-128 | Closes an open session, has no effect on a closed one |
| `Stores.ObjectStore.CompleteMultipart` | internal/objectstorage/storage.go:110-121 | Cleans every tag once more, closes an open session over the list and makes the object; no effect on a closed one |
| `Answers.GateOpensExactlyTo` | internal/file/service.go:551-570 | A call on an existing file gets through exactly if its caller is authenticated, granted the application and, if a user, of the named tenant, and to no other row than the one with all three ids |
| `Service.FileService.InitiateUpload` | internal/file/service.go:58-112 | Refused requests change nothing; otherwise the file that has the trimmed key is signed for, or a new row with what was declared is inserted with its event and signed for; a URL is only answered for a file with the key that was sent. The call is a serial protocol call |
| `Service.FileService.InitiateMultipartUpload` | internal/file/service.go:113-161 | Refused unless 5 MiB to 5 GiB parts, 8 MiB by default, cut the size into 1 to 10000; then the pending upload that has the key, a conflict, or a new row with a session opened before the insert and aborted if that failed |
| `Service.FileService.AuthorizeUploadPart` | internal/file/service.go:197-220 | A URL exactly for an admitted caller, a part in range and a pending multipart upload that is not over, else the first error; nothing changes |
| `Service.FileService.CompleteMultipartUpload` | internal/file/service.go:222-258 | Conflict, invalid list, failed assembly, failed second check or the answer of CompleteUpload on the assembled object, case by case with what storage then holds; over the wire goes the accepted list, sorted, with tags cleaned twice |
| `Service.FileService.AbortMultipartUpload` | internal/file/service.go:260-293 | A deleted row is returned; only a pending multipart row at the expected version is aborted, session first, then deleted one version on with its event |
| `Service.FileService.CompleteUpload` | internal/file/service.go:332-378 | A ready row is returned; without an object unavailable; conflict exactly when object size, presented checksum or object checksum disagree with the declared ones; else ready one version on, scan as configured, if the expected version is current, stale if not |
| `Service.FileService.AuthorizeDownload` | internal/file/service.go:423-446 | A URL exactly for an admitted caller and a ready row that is clean or skipped, else the first error; nothing changes |
| `Service.FileService.ReportScanResult` | internal/file/service.go:447-478 | Conflict unless the row is ready and awaits its scan; else the verdict one version on if the expected version is current, stale if not |
| `Service.FileService.Delete` | internal/file/service.go:479-533 | A deleted row is returned; a deleting one has its object removed and becomes deleted one version on; any other is marked first, if the expected version is current; what remains after each failure, and that with good answers the call ends in a deleted row without its object |
| `Service.FileService.List` | internal/file/service.go:393-422 | Exactly the page of the trimmed scope, page 1 and 20 rows by default, or the first error in the order of the checks |
| `Service.FileService.CleanOne` | internal/file/service.go:303-325 | One listed upload has its session aborted or its object removed and, if that succeeded, expires one version on with its event; counted as cleaned exactly if storage and commit report success |
| `Service.FileService.CleanupExpiredUploads` | internal/file/service.go:295-328 | A failed listing is reported and changes nothing; otherwise cleaned count plus errors equals files listed, rows whose commit took effect are expired one version on with one event each, and a row that is not pending or whose time is not over is unchanged |
| `Service.CleanRunIsDrainStep` | internal/file/service.go:295-328 | Without failures and at a fixed clock a cleanup run is one step of the drain |
| `Service.BatchFacts` | internal/file/repository.go:94-98 | A batch names distinct stored uploads, all pending and with an expiry that is not after the given time |
| `Service.OneMoreCleaned` | internal/file/service.go:302-325 | Cleaning the next listed file changes that row and no other |
| `Service.FileService.CommitUpdate` | internal/file/service.go:285-292 | Each outcome of the update transaction leaves stores and response at the protocol's next state |
| `Service.FileService.StoresAreSound` | internal/file/service.go:332-378 | After any sequence of calls on the service: ready rows have their object, each file's last event tells its row field by field, and the tables are those of the committed operations run atomically |

## Left out

- HTTP and gRPC transport, authentication, health, logging, metrics, configuration: plumbing around the service.
- The Redis idempotency manager, locks, rate limiter, scheduler and the outbox dispatcher with its retention cleaner: their state is not part of this model; the outbox here only grows.
- `Get` of the service: the same checks and read as every other operation on an existing file, and nothing after them.
- SQL text, LIKE patterns and timestamp precision: the table is a map, a list filter an arbitrary predicate on rows, a time an integer.
- Contents of signed URLs, their headers and expiry, protobuf encoding, event ids: a URL stands for the row it was signed for, an event for the row it projects.
- MIME parsing, the application verifier, UUID generation, the clock and the ids storage gives to sessions: inputs of the call; the ids are fresh, and a UUID is 36 characters without a slash.
- `strings.ToLower` outside ASCII: the lower-cased text is only compared with, or required to be, hexadecimal digits.
- The 64-bit width of versions and sizes in rows: versions are unbounded integers; the width is modelled where arithmetic can wrap, in the part count and the page offset.
- The unique constraint on bucket and object key: not modelled, since distinct files never share a key (`ObjectKeys.DistinctFilesDistinctKeys`).
- `sort.Slice` and ORDER BY: by their result, the one sorted sequence, not by their algorithm.
- Client uploads: only of the length and checksum metadata that the signed URL fixes, and only for files that have a row; parts of a multipart upload appear when the session is completed, with any total size.
- Concurrency and crashes inside the class methods: the class serves one call at a time, interleaving and crashing are steps of the protocol.
- Service.FileService.CleanupExpiredUploads: the list is read once and each file is then cleaned by its own protocol call, which reads the row again; with one call at a time nothing changes in between. In the protocol a cleanup call reads its own file, so interleaved cleanups start from every row the list could have shown.
