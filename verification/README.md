# Galaxy OS: verified models

This project models the parts of the Galaxy OS repository whose correctness spans several functions, and
proves their properties for all inputs, all runs and all interleavings.

- **Office files** (`OfficeArchive`, `OfficeArchivePrinter`, `OfficePresentation`, `OfficeDocument`): the
  bounded ZIP decoder over arbitrary bytes, a stored-method printer with its round trip, the budget shared by
  a presentation and its embedded workbooks, and the streaming text extraction as a refinement of a recursive
  traversal.
- **File reservations** (`FileStorage`, `FileCapacity`, `UploadProtocol`, `FilesService`): a transactional
  database beside a filesystem that is not, with failures between any two effects and commits whose
  acknowledgement is lost. `UploadProtocol` is the step system, `FilesService` the imperative client that is
  proved to follow it.
- **Access** (`ProjectPolicy`, `DepartmentForest`, `ManagedScopes`, `ChatHistory`): a permission-to-query
  compiler and its in-memory twin, the forest of organizational units, the two closure loops over it, the whole
  path from role assignments to query answers, and delegated chat history.
- **Releases** (`Deployment`, `EdgeAdmission`): the write-ahead journal, gate and barrier of the release
  operator with an exception possible before and after every effect, and the edge's admission and drain
  certificate.
- **Money and limits** (`Allocation`, `Quotations`, `ContractValue`, `ContractPayments`, `Cents`, `Totals`,
  `RateLimiter`, with `FiniteSets` and `Outcomes` shared by all).

Objects that the program updates in place are classes; their methods are proved against specification
functions, and the properties are proved about those functions over runs. A failure is a nondeterministic
choice (`if *`), and what other processes do between two effects is a method whose contract allows any run.

## Where the code does less than it seems to

Each of these is a lemma or, where noted, a contract, with the condition under which the property holds:

- A paragraph around others keeps of its text only what follows the last paragraph opened inside it, after that
  one's own text: what came before is lost, and the inner text comes twice unless it is blank
  (`OfficeDocument.NestedParagraphRepeats` for the smallest tree; exactly when lines lack text: `OfficeDocument.WholeLinesExactly`).
- A failed exclusive create removes the object that was already there, when the cleanup succeeds (the contract
  of `FileStorage.FileStorage.PutStream`).
- A write that lands after its reservation expired can leave an unaccounted object
  (`UploadProtocol.LateWriteLeaks`).
- Cleaning up the file of an ended session whose staging was already released charges the session again without
  admission, so the limits can be exceeded (`UploadProtocol.LimitExceeded`; exactly when:
  `UploadProtocol.StepWithinExactly`; by how much at most: `UploadProtocol.CapacityAlways`).
- Query and predicate differ for sources without department lists exactly when a permission is not settled
  (`ProjectPolicy.SettledExactly`).
- The guard and the chat policy differ exactly on inconsistent rows for one department, which the unique index
  rules out (`ManagedScopes.SameExactly`).
- The tests of two commands on departments protect the forest under interleaving exactly when the commands do
  not clash (`DepartmentForest.InterleavedExactly`).
- After a release was opened, a rollback interrupted inside its restoring phase can leave a mixture of old and
  new files, the edge's configuration among them (`Deployment.InterruptedRollback`, exactly when); every later
  rollback that completes still restores all (`Deployment.Operator.Recover`).
- The edge decides on the parsed path, the API on the path as sent; they part exactly on paths that parsing
  changes (`EdgeAdmission.EdgeBeyondApiExactly`).
- Allocations finer than a cent are rounded by two-decimal columns; the books are kept exactly when every column
  takes its part (`ContractPayments.PayingKeepsInvExactly`).
- A quotation's stored total can be up to three cents off its stored parts when charges have fractions of a cent
  (`Quotations.TotalIsPartsExactly`); its subtotal is its line totals exactly when rounding these by themselves drifts
  no further than rounding allows (`Quotations.SubtotalIsLinesExactly`).

## Model

| member | source | states |
|---|---|---|
| OfficeArchive.BoundedOfficeParts | apps/api/src/files/office-archive.ts:12-130 | accepts a byte string exactly when `Archives` describes it, returns the central directory's names each with the slice (or its inflation) that its local header designates, and charges the shared budget; otherwise raises |
| OfficeArchive.FindEnd | apps/api/src/files/office-archive.ts:24-30 | the backward scan finds the greatest offset of an end record whose comment ends exactly at the end of the file, or none exists |
| OfficeArchive.ReadRecord | apps/api/src/files/office-archive.ts:49-125 | one directory record is accepted exactly when both headers agree, stay in their regions and the content has the declared size; no fixed-width read leaves the buffer |
| OfficeArchive.ReadDirectory | apps/api/src/files/office-archive.ts:45-128 | the record loop reads exactly the directory, in order, under distinct names and within the budget, and ends on the end record |
| OfficeArchive.DirectoryStep | apps/api/src/files/office-archive.ts:49-125 | a directory can be read one record further exactly when the next record fits its name and the budget |
| OfficeArchive.DirectoryStuck | apps/api/src/files/office-archive.ts:49-125 | when the next record does not follow, no longer list can be read off the directory |
| OfficeArchive.DirectoryUnique | apps/api/src/files/office-archive.ts:45-128 | two readings of one directory agree as far as the shorter goes |
| OfficeArchive.ArchivesUnique | apps/api/src/files/office-archive.ts:12-130 | a byte string describes at most one list of parts |
| OfficeArchive.ArchivesAtEnd | apps/api/src/files/office-archive.ts:24-48 | an archive is described through its last end record only |
| OfficeArchivePrinter.RoundTrip | apps/api/src/files/office-archive.ts:18-129 | for every list of parts with distinct safe names within the limits, the stored-method archive printed per APPNOTE 4.3.7, 4.3.12 and 4.3.16 describes exactly that list and no other |
| OfficeArchivePrinter.PrintedRecord | apps/api/src/files/office-archive.ts:49-125 | the decoder's reading of the i-th printed record is the i-th part |
| OfficeArchivePrinter.PrintedCursor | apps/api/src/files/office-archive.ts:45-52 | the cursor over a printed directory stands at each record in turn and ends on the end record |
| OfficeArchivePrinter.PrintedEnd | apps/api/src/files/office-archive.ts:24-44 | the printed end record is the last one and its fields pass the decoder's tests |
| OfficeArchivePrinter.LaidOut | apps/api/src/files/office-archive.ts:54-116 | headers laid out as printed, wherever they are, read back as the stored part |
| OfficeArchivePrinter.ReadLocal | apps/api/src/files/office-archive.ts:75-97 | the fields of a printed local header (APPNOTE 4.3.7) read back |
| OfficeArchivePrinter.ReadCentral | apps/api/src/files/office-archive.ts:49-66 | the fields of a printed central header (APPNOTE 4.3.12) read back |
| OfficeArchivePrinter.ReadEnd | apps/api/src/files/office-archive.ts:31-44 | the fields of a printed end record (APPNOTE 4.3.16) read back |
| OfficePresentation.SharedBudget | apps/api/src/files/office-presentation.ts:16-36 | an accepted package and all its embedded workbooks together stay within 32 MiB expanded and 2048 entries |
| OfficePresentation.WorkbooksWithinBudget | apps/api/src/files/office-presentation.ts:29-36 | each workbook is decoded with what the earlier ones left, and the sum stays within the budget |
| OfficePresentation.CheckParts | apps/api/src/files/office-presentation.ts:22-122 | the loop over the parts accepts exactly when every part and workbook is acceptable, decoding the workbooks in order on one budget |
| OfficePresentation.PptxParts | apps/api/src/files/office-presentation.ts:16-125 | accepts exactly the packages `Accepted` describes and returns their parts |
| OfficeDocument.TextIsTraversal | apps/api/src/files/office-document.ts:118-224 | for every tree, nested paragraphs included, extraction succeeds exactly when depth and lines fit the limits, its lines are those of the recursive traversal, and the table stack ends empty |
| OfficeDocument.StackDiscipline | apps/api/src/files/office-document.ts:151-210 | for every tree, nested paragraphs or not, the table stack is never popped when empty and ends as it began |
| OfficeDocument.StreamComputes | apps/api/src/files/office-document.ts:158-214 | from any state the stream reaches exactly the traversal's lines and counters, row and cell restored after each table, with the text and style since the last opened paragraph held, or stops at the same limit |
| OfficeDocument.WholeLinesExactly | apps/api/src/files/office-document.ts:158-214 | every paragraph's line holds all its text if and only if no paragraph is disturbed by those inside it: nothing but white space comes before the last of them, and no style where the style is the label |
| OfficeDocument.UnnestedUndisturbed | apps/api/src/files/office-document.ts:162-204 | without nested paragraphs nothing is disturbed |
| OfficeDocument.LostAndHeld | apps/api/src/files/office-document.ts:162-195 | of all the text read, what is not held is what was let go when a paragraph opened |
| OfficeDocument.TrimAppend | apps/api/src/files/office-document.ts:199-203 | text before is trimmed away exactly when it is white space; otherwise the trimmed text is longer |
| OfficeDocument.NestedParagraphRepeats | apps/api/src/files/office-document.ts:162-204 | the smallest such tree, for all texts: of a paragraph that holds a text and then a paragraph with another text, the first text is lost and the second comes twice |
| OfficeDocument.DocxText | apps/api/src/files/office-document.ts:143-223 | the event loop with its mutable variables computes the streamed lines joined by newlines, or the error |
| OfficeDocument.Handler.OnOpen | apps/api/src/files/office-document.ts:160-195 | an opening tag moves the handler's variables as the specification says |
| OfficeDocument.Handler.OnClose | apps/api/src/files/office-document.ts:196-210 | a closing tag emits the labelled paragraph and restores the surrounding table's counters |
| OfficeDocument.Handler.Emit | apps/api/src/files/office-document.ts:152-157 | a line is added exactly when size and line count stay within their limits |
| OfficeDocument.Handler.OnText | apps/api/src/files/office-document.ts:211-213 | characters are collected exactly while reading |
| FileStorage.FileStorage.PutStream | apps/api/src/files/file-storage.ts:107-151 | success stores all the chunks on a path that was free; a failed write is cleaned up exactly when removing succeeds; on a path that existed it fails, and the object is gone exactly when the path was to be opened and removing succeeded |
| FileStorage.FileStorage.PublishPending | apps/api/src/files/file-storage.ts:152-156 | the pending object becomes the final one with its bytes, and nothing else changes |
| FileStorage.FileStorage.RemovePending | apps/api/src/files/file-storage.ts:157-163 | on success the claim's pending object is absent; nothing else changes |
| FileStorage.FileStorage.Remove | apps/api/src/files/file-storage.ts:354-362 | on success the final object is absent; nothing else changes |
| FileStorage.ChangedOnlyAt | apps/api/src/files/file-storage.ts:140-150 | a disk that differs at one free path is the old one with that path written |
| FileCapacity.CheckFileCapacity | apps/api/src/files/file-quota.ts:86-350 | the admission test over the reported sums gives exactly the specified verdict: global limit, organization limit, then the actor's operations and open sessions |
| FileCapacity.Usage | apps/api/src/files/file-quota.ts:86-292 | the two sums are the charged bytes (permanent, without purged files, + 3 staged + 2 materialized) and the object rows |
| FileCapacity.ReservationToFile | apps/api/src/files/file-quota.ts:289-298 | turning a reservation into a file row leaves charge and row count unchanged, for everybody and for each organization |
| FileCapacity.ReservationToDocument | apps/api/src/files/file-quota.ts:289-298 | the same for a document row |
| FileCapacity.SessionToFile | apps/api/src/files/file-quota.ts:289-293 | the weights are neutral: 3d of staging become 2d of held staging plus d of file |
| FileCapacity.ReleaseSession | apps/api/src/uploads/uploads.service.ts:590-631 | releasing a session lowers the charge by exactly three times what it has staged, twice what it still holds, and once more its file when that was retired |
| FileCapacity.RetireSession | apps/api/src/uploads/uploads.service.ts:642-742 | retiring the file of a session changes no charge while its staging is held; of a released one it charges exactly twice the size again, three times when the file had been purged |
| FileCapacity.ChargeReservation | apps/api/src/files/file-quota.ts:289-298 | a reservation is charged its bytes once and one row |
| FileCapacity.BytesRemove | apps/api/src/files/file-quota.ts:86-287 | a table's sum does not depend on the order of its rows |
| UploadProtocol.RunKeepsInv | apps/api/src/files/files.service.ts:392-648 | over every interleaving of uploads, generations, reaper and sessions, retired and removed ones included, with failures between any two effects and lost acknowledgements, the protocol invariant holds |
| UploadProtocol.StepKeepsInv | apps/api/src/files/files.service.ts:394-648 | each single step keeps the invariant |
| UploadProtocol.StepKeepsSound | apps/api/src/files/files.service.ts:394-648 | each step keeps rows, disk objects and clients in agreement |
| UploadProtocol.LocalKeeps | apps/api/src/files/files.service.ts:433-648 | a step that touches only what belongs to one client and leaves that in order leaves everything in order |
| UploadProtocol.Coverage | apps/api/src/files/files.service.ts:392-648 | after every run each final object has a committed row or a live reservation, and each pending one a live reservation, except objects written after their reservation expired |
| UploadProtocol.FullCoverage | apps/api/src/files/files.service.ts:392-648 | when writes land in time the exception is void |
| UploadProtocol.InTimeNeverLate | apps/api/src/files/files.service.ts:427-439 | a run whose writes land in time records no late object |
| UploadProtocol.CommittedForever | apps/api/src/files/files.service.ts:632-647 | once a row is committed no later step, the failure path after a lost acknowledgement included, removes the row or changes its bytes, unless it is a session's file that is retired; what a client of the protocol committed never is |
| UploadProtocol.RetiredExactly | apps/api/src/uploads/uploads.service.ts:722-742 | a file is retired after a run exactly when it was before or a step of the run retires it |
| UploadProtocol.CapacityAlways | apps/api/src/files/files.service.ts:395-426 | in every interleaving the charged bytes exceed the organization's and the global limit by no more than what released sessions are charged again, hence not at all in a run that retires no released session's file; object rows not while no session was opened |
| UploadProtocol.StepWithinExactly | apps/api/src/uploads/uploads.service.ts:642-742 | a step leaves everybody within the limits if and only if it does not retire the file of a released session or there is room for what that is charged again |
| UploadProtocol.LimitExceeded | apps/api/src/uploads/uploads.service.ts:590-742 | from nothing, whatever the limits from three object rows on, a run brings an organization to its limit and then over it by twice the size of a session's file |
| UploadProtocol.LateWriteLeaks | apps/api/src/uploads/uploads.service.ts:990-1052 | a write that lands after the reaper took its expired reservation leaves an object that nothing accounts for |
| UploadProtocol.RunAppend | apps/api/src/files/files.service.ts:392-648 | runs compose |
| FilesService.FilesService.Transfer | apps/api/src/files/files.service.ts:392-648 | whatever fails and whoever interleaves, the method moves along a run of the step system, keeps the invariant, and on success a committed row stands over exactly the sent bytes unless the upload was a replay |
| FilesService.FilesService.Attempt | apps/api/src/commercial/quotation-documents.service.ts:180-254 | the two transactions around the write, as one path of the step system |
| FilesService.FilesService.Reserve | apps/api/src/files/files.service.ts:395-426 | the first transaction admits and inserts the reservation atomically |
| FilesService.FilesService.Put | apps/api/src/files/files.service.ts:427-432 | the pending write under the reservation's claim |
| FilesService.FilesService.Begin | apps/api/src/files/files.service.ts:433-441 | the second transaction goes on only with its reservation present and in time |
| FilesService.FilesService.ClearReplay | apps/api/src/files/files.service.ts:464-472 | a replay removes its pending object and its reservation |
| FilesService.FilesService.Publish | apps/api/src/files/files.service.ts:511-511 | the rename publishes the object inside the transaction |
| FilesService.FilesService.Commit | apps/api/src/files/files.service.ts:512-631 | the commit inserts the row and deletes the reservation together, or neither; its acknowledgement may be lost |
| FilesService.FilesService.CleanUp | apps/api/src/files/files.service.ts:632-647 | the failure path deletes only while its reservation exists and drops the reservation last |
| FilesService.ForeignKeeps | apps/api/src/files/files.service.ts:392-648 | no run of others changes a client's own phase |
| FilesService.RowHolds | apps/api/src/files/files.service.ts:512-526 | a client whose key has a row finds its own bytes there |
| ProjectPolicy.QueryMatchesPredicate | apps/api/src/access-control/business-entity.policy.ts:96-166 | for every non-empty list of settled permissions the compiled query returns exactly the live projects of the organization on which each permission applies |
| ProjectPolicy.GuardedQueryMatchesPredicate | apps/api/src/access-control/business-entity.policy.ts:96-166 | the same without condition for sources that all carry their department lists |
| ProjectPolicy.SettledExactly | apps/api/src/access-control/business-entity.policy.ts:61-166 | query and predicate agree on every project if and only if the permission is settled |
| ProjectPolicy.Unsettled | apps/api/src/access-control/business-entity.policy.ts:83-94 | for an unsettled permission, a project that memory admits and the query does not |
| ProjectPolicy.AccessMatches | apps/api/src/access-control/business-entity.policy.ts:116-158 | what the condition compiled for one permission answers |
| ProjectPolicy.LegacyMatches | apps/api/src/access-control/business-entity.policy.ts:45-59 | what the condition for an actor without sources answers |
| ProjectPolicy.ListedSettles | apps/api/src/access-control/development-auth.guard.ts:230-244 | sources as the guard builds them are settled |
| ProjectPolicy.NarrowedKeepsMatching | apps/api/src/access-control/business-entity.policy.ts:440-470 | the actor narrowed to a project keeps exactly the permissions whose query matches that project |
| DepartmentForest.RunKeepsForest | apps/api/src/departments/departments.service.ts:77-169 | over every sequence of create, update and archive the units stay acyclic, inside one organization, with active parents of active units |
| DepartmentForest.MoveCreatesCycle | apps/api/src/departments/departments.service.ts:113-129 | a move creates a cycle if and only if the walk from the new parent meets the moved unit |
| DepartmentForest.AcyclicIffRooted | apps/api/src/departments/departments.service.ts:115-129 | in a finite table, having no cycle and every ancestor walk ending are the same |
| DepartmentForest.DepartmentsService.Meets | apps/api/src/departments/departments.service.ts:113-129 | the ancestor walk ends and answers whether the unit is met |
| DepartmentForest.DepartmentsService.Create | apps/api/src/departments/departments.service.ts:77-100 | the new table and the refusal are those of the specification; the forest is kept |
| DepartmentForest.DepartmentsService.Update | apps/api/src/departments/departments.service.ts:102-140 | refused exactly for an absent unit, a bad parent or manager, or a cycle; otherwise the unit is moved; the forest is kept |
| DepartmentForest.DepartmentsService.Archive | apps/api/src/departments/departments.service.ts:142-169 | refused exactly with active children or memberships; the forest is kept |
| DepartmentForest.UpdateKeepsForest | apps/api/src/departments/departments.service.ts:102-140 | an accepted update keeps the forest |
| DepartmentForest.CreateKeepsForest | apps/api/src/departments/departments.service.ts:77-100 | an accepted create keeps the forest |
| DepartmentForest.InterleavedExactly | apps/api/src/departments/departments.service.ts:77-169 | two commands whose tests both passed on one table and whose writes both follow, in either order, leave a forest if and only if they do not clash: two moves that put each unit at or below the other, or an archive and an active unit put under it |
| DepartmentForest.InterleavedMovesExactly | apps/api/src/departments/departments.service.ts:113-130 | two moves accepted on the same acyclic table and both written close a cycle if and only if each unit was put at or below the other |
| DepartmentForest.InterleavedMovesCycle | apps/api/src/departments/departments.service.ts:102-140 | the smallest such clash: of two units without parents each is put under the other |
| DepartmentForest.TrailGrows | apps/api/src/departments/departments.service.ts:115-129 | without cycles a walk visits a new unit at each step |
| ManagedScopes.GuardScopes | apps/api/src/access-control/development-auth.guard.ts:178-217 | the guard's loop over all scopes ends, each scope is the set reached through active children (when some row includes them), and the flat list is their union |
| ManagedScopes.Round | apps/api/src/access-control/development-auth.guard.ts:197-217 | one round over the departments either finds something new or all scopes are closed |
| ManagedScopes.PassList | apps/api/src/access-control/development-auth.guard.ts:206-216 | one pass over the units finds only reached units, and nothing only when the list is closed |
| ManagedScopes.FreshScopes | apps/api/src/access-control/project-chat.policy.ts:167-195 | the chat policy's loop computes for each department the scope its last row asks for |
| ManagedScopes.GrowSet | apps/api/src/access-control/project-chat.policy.ts:183-193 | one row's set grows to exactly the reached units |
| ManagedScopes.PassSet | apps/api/src/access-control/project-chat.policy.ts:186-192 | one pass either grows the set or leaves it closed |
| ManagedScopes.ReachIsLeast | apps/api/src/access-control/project-chat.policy.ts:183-193 | the reached units are the least set with the root that is closed under active children |
| ManagedScopes.SameExactly | apps/api/src/access-control/project-chat.policy.ts:167-195 | the two computations agree over every table of units if and only if the rows of each department are consistent |
| ManagedScopes.OneRowEachIsConsistent | apps/api/prisma/schema.prisma:518-534 | one row per department, as the unique index keeps it, is consistent |
| ManagedScopes.InconsistentDiffer | apps/api/src/access-control/project-chat.policy.ts:182-195 | rows that disagree are told apart by one child unit |
| ManagedScopes.ScopeIsSubtree | apps/api/src/access-control/development-auth.guard.ts:178-217 | over the forest, a scope that includes children is exactly the unit and all active units below it |
| ManagedScopes.GuardedAccess | apps/api/src/access-control/development-auth.guard.ts:178-244 | from rows to answer: the compiled query returns a project exactly when it is live, the permission is held and an assignment brings it there, by scope, ownership or the managed subtree |
| ManagedScopes.SourceReaches | apps/api/src/access-control/development-auth.guard.ts:230-244 | a source the guard builds reaches exactly what its assignment brings |
| ChatHistory.ValidHistory | apps/api/src/access-control/project-chat.policy.ts:394-474 | ends on every table, cyclic ones included, and is true exactly when the row has a complete provenance |
| ChatHistory.History | apps/api/src/access-control/project-chat.policy.ts:359-392 | the ranges are the grant's own and the windows of the rows with a complete provenance, each judged from its own reading of the clock, after the query's two and in order |
| ChatHistory.ValidRowIsDelegated | apps/api/src/access-control/project-chat.policy.ts:394-474 | a row that counts comes down a finite path of live grants of the room, and its window starts no earlier than the far grant took effect |
| ChatHistory.WindowsAreDelegated | apps/api/src/access-control/project-chat.policy.ts:359-392 | every lent range of a grant comes down a path of grants that starts at it, live when its row is judged, and starts no earlier than the far grant took effect |
| ChatHistory.WindowsNest | apps/api/src/access-control/project-chat.policy.ts:437-443 | along a provenance each window lies inside every ancestor's |
| ChatHistory.ProvenanceEnds | apps/api/src/access-control/project-chat.policy.ts:404-474 | a complete provenance ends, so a row on a loop has none |
| ChatHistory.RestStep | apps/api/src/access-control/project-chat.policy.ts:404-472 | one turn of the loop preserves the answer |
| ChatHistory.RestNotOnLoop | apps/api/src/access-control/project-chat.policy.ts:405-406 | a row met again cannot have a complete provenance |
| Deployment.Operator.Activate | scripts/deploy-mcp-release.py:85-92 | activation completes with the candidate in place and admission open, and does when nothing raises; whatever interrupts it, the journal covers what changed, and a rollback that completes leaves files, gate and table as before; the apps change only after polls in this run saw work end twice, while draining and behind the closed gate and barrier |
| Deployment.Operator.Rollback | scripts/deploy-mcp-release.py:302-360 | a rollback that completes restores manifest, units and edge with no table and no gate, and does when nothing raises; one that raises before restoring leaves the files untouched; after opening, files change only once polls in this run saw the work end; an exception at the k-th write leaves exactly k files restored |
| Deployment.Operator.Recover | scripts/deploy-mcp-release.py:302-382 | however often rollbacks are interrupted, the first that completes restores the snapshot |
| Deployment.Operator.Steps | scripts/deploy-mcp-release.py:88-89 | the five steps in order, with the write-ahead property at every exception; the apps differ from the snapshot only after the old work was seen to end |
| Deployment.Operator.TakeSnapshot | scripts/deploy-mcp-release.py:140-162 | the snapshot is journaled last, with no table and no gate in place |
| Deployment.Operator.Note | scripts/deploy-mcp-release.py:116-118 | the journal on disk never loses an entry, and after success holds the new one |
| Deployment.Operator.BootstrapEdge | scripts/deploy-mcp-release.py:271-274 | the edge changes only after its entry is on disk |
| Deployment.Operator.DrainWork | scripts/deploy-mcp-release.py:275-281 | success means a closed gate, a raised barrier, and in the polls made meanwhile three quiet ones while draining and then three behind gate and barrier |
| Deployment.Operator.CloseAdmission | scripts/deploy-mcp-release.py:277-280 | the same for the two settlings around closing the gate and raising the barrier |
| Deployment.DrainedDuring | scripts/deploy-mcp-release.py:277-280 | what was observed during a part of a run was observed during the run |
| Deployment.Operator.SwitchToCandidate | scripts/deploy-mcp-release.py:282-291 | units and manifest change only behind a closed gate and after their entry is on disk |
| Deployment.Operator.OpenToPublic | scripts/deploy-mcp-release.py:295-300 | gate and table are unchanged until the opening is in the journal on disk |
| Deployment.Operator.CloseOpened | scripts/deploy-mcp-release.py:310-341 | after opening, the way to a closed gate succeeds only once the old work was seen to end; a drain that fails in a handled way is entered as blocked, and on success of the writing the journal on disk says so |
| Deployment.Operator.RestoreSnapshot | scripts/deploy-mcp-release.py:343-360 | completes with everything restored; interrupted, the four files are a prefix of the restore, the one its failure point says when nothing else raises |
| Deployment.Operator.InstallApps | scripts/deploy-mcp-release.py:282-290 | interrupted, the three files are replaced up to some point in order |
| Deployment.Operator.TrackNetwork | scripts/deploy-mcp-release.py:183-190 | afterwards a table is in place and the process knows which |
| Deployment.Operator.RaiseBarrier | scripts/deploy-mcp-release.py:192-199 | with a right idea of the barrier before, it is up afterwards |
| Deployment.Operator.DropBarrier | scripts/deploy-mcp-release.py:192-199 | afterwards there is no table |
| Deployment.Operator.Settle | scripts/deploy-mcp-release.py:171-178 | completes exactly at the first poll that makes three quiet ones with no busy one between; all it goes by are polls it made, recorded with the gate and the table as they stood; handled exceptions do not reset the count |
| Deployment.StreakIsThreeQuiet | scripts/deploy-mcp-release.py:232-238 | the counter reaches three exactly when three quiet polls with no busy one between are complete |
| Deployment.InterruptedRollback | scripts/deploy-mcp-release.py:302-354 | a release activated without trouble and rolled back with an exception at any point of the restoring phase ends with all four files of the one release or of the other, exactly unless the exception comes between two files that the releases do not share |
| EdgeAdmission.DrainCertificate | apps/edge/src/edge.ts:329-362 | a snapshot with the gate closed and count zero means no admitted request is outstanding, then and until the gate is something else |
| EdgeAdmission.RunKeepsInv | apps/edge/src/edge.ts:353-362 | in every run the counter is the number of admitted requests neither finished nor closed |
| EdgeAdmission.EndedKeepsInv | apps/edge/src/edge.ts:354-362 | though both events may fire, a request is counted down once |
| EdgeAdmission.EdgeWithinApi | apps/api/src/deployment-admission.ts:41-74 | for a path sent in normal form (one leading slash, no dot pieces, no backslashes), what the edge admits under a gate the API admits, and the API admits nothing else but its probes |
| EdgeAdmission.EdgeBeyondApiExactly | apps/edge/src/edge.ts:317-345 | the edge admits what the API refuses exactly when, while draining, a write is exempt as parsed and its path was not sent in normal form (with backslashes, unless that form is exempt too) |
| EdgeAdmission.ExemptOnce | apps/edge/src/edge.ts:331-340 | without backslashes, a path that parsing changes is never exempt both as sent and as parsed |
| EdgeAdmission.NormalPathname | apps/edge/src/edge.ts:319-319 | parsing leaves a path in normal form as it was sent |
| EdgeAdmission.ParsedPathsDiffer | apps/edge/src/edge.ts:319-345 | every exempt path can be sent behind an authority (`//x/mcp`) or behind a piece that is taken back (`/x/../mcp`): the edge lets it through, the API refuses it |
| EdgeAdmission.Edge.OnRequest | apps/edge/src/edge.ts:329-362 | a request is proxied and counted exactly when the gate admits it |
| EdgeAdmission.Edge.OnFinished | apps/edge/src/edge.ts:355-362 | the request is no longer outstanding, and no other changes |
| EdgeAdmission.Edge.Snapshot | apps/edge/src/edge.ts:320-324 | the two numbers of a health answer are the gate's state and the number of outstanding requests |
| Allocation.AllocateAmount | apps/api/src/commercial/project-financial-calculations.ts:82-118 | raises exactly out of range, otherwise returns an allocation; the loop makes at most n turns, fewer for whole cents |
| Allocation.SharesSumToTotal | apps/api/src/commercial/project-financial-calculations.ts:96-117 | the shares sum to the total rounded half up to cents |
| Allocation.ShareIsProportional | apps/api/src/commercial/project-financial-calculations.ts:96-117 | each share is the proportional cents rounded down, or one cent more |
| Allocation.SharesAreFair | apps/api/src/commercial/project-financial-calculations.ts:109-117 | the extra cents go to a prefix, and an earlier share of no smaller weight is never smaller |
| Allocation.LeftOver | apps/api/src/commercial/project-financial-calculations.ts:102-108 | rounding down leaves between 0 and n cents, fewer than n for a whole total |
| Allocation.TopUp | apps/api/src/commercial/project-financial-calculations.ts:109-116 | the cyclic loop gives one cent to each of the first shares |
| Allocation.FloorsLose | apps/api/src/commercial/project-financial-calculations.ts:96-101 | rounding down loses less than a cent on each share |
| Quotations.RunKeepsInv | apps/api/src/commercial/commercial.service.ts:581-807 | in every reachable state versions are numbered from one, all but the last are superseded, lines and subtotal never change, the header mirrors the last version, and totals are within three cents of their parts |
| Quotations.AcceptedForever | apps/api/src/commercial/commercial.service.ts:605-612 | no command changes an accepted quotation |
| Quotations.ContractKeepsTotal | apps/api/src/contracts/contracts.service.ts:90-118 | a contract's original value equals its quotation's total, whatever happens before and after it is made |
| Quotations.LinesForever | apps/api/src/commercial/commercial.service.ts:740-760 | every version has the lines and the subtotal the quotation was made with |
| Quotations.SubtotalIsLinesExactly | apps/api/src/commercial/commercial.service.ts:431-446 | the stored subtotal is the stored line totals if and only if rounding the products drifts by less than half a cent or by a half the sum rounds alike; the difference is at most half a cent a line and half a cent, and none when every product is in whole cents |
| Quotations.SubtotalForever | apps/api/src/commercial/commercial.service.ts:431-760 | for every version after every run this is decided when the quotation is created |
| Quotations.TotalIsPartsExactly | apps/api/src/commercial/commercial.service.ts:447-488 | the stored total is the stored parts if and only if rounding the parts drifts by less than half a cent or by a half the total rounds alike; it is never more than three cents off |
| Quotations.WholeChargesExactly | apps/api/src/commercial/commercial.service.ts:447-488 | with charges in whole cents and any subtotal, it is if and only if the subtotal does not end in half a cent or the total is on its side of zero |
| Quotations.ThreeCentsOff | apps/api/src/commercial/commercial.service.ts:447-488 | fractions in every amount for which it is three cents off |
| Quotations.RunKeepsTotals | apps/api/src/commercial/commercial.service.ts:689-733 | while revisions give whole cents, every version's total stays its parts to the cent |
| Quotations.TotalsAlwaysExact | apps/api/src/commercial/commercial.service.ts:389-807 | from a creation with whole-cent charges through whole-cent revisions each grand total equals subtotal - discount + tax + shipping + installation + warranty |
| Quotations.Commercial.CreateQuotation | apps/api/src/commercial/commercial.service.ts:389-524 | created exactly with discount permission, an approved estimate and a non-negative total |
| Quotations.Commercial.TransitionQuotation | apps/api/src/commercial/commercial.service.ts:581-665 | version and header move together along the allowed transitions, or the refusal is the specified one |
| Quotations.Commercial.ReviseQuotation | apps/api/src/commercial/commercial.service.ts:667-807 | the current version is superseded and a draft with its lines follows, or the refusal is the specified one |
| Quotations.CreatedInv | apps/api/src/commercial/commercial.service.ts:455-512 | a created quotation satisfies the invariant |
| ContractValue.RunKeepsInv | apps/api/src/contracts/contracts.service.ts:232-339 | over every interleaving of stale reads and locked commits, the value is the original plus the changes of the effective appendices, each applied once, and the history telescopes |
| ContractValue.NeverNegative | apps/api/src/contracts/contracts.service.ts:311-315 | the value is never negative unless the contract was created so and nothing was applied |
| ContractValue.SecondIsRefused | apps/api/src/contracts/contracts.service.ts:286-296 | of two requests that read the same status, the second is refused and changes nothing |
| ContractValue.StepKeepsInv | apps/api/src/contracts/contracts.service.ts:266-339 | each read and each commit keeps the ledger's invariant |
| ContractValue.Contracts.constructor | apps/api/src/contracts/contracts.service.ts:105-152 | a contract starts at the quotation's total with one history line |
| ContractValue.Contracts.CommitTransition | apps/api/src/contracts/contracts.service.ts:286-338 | the transaction does exactly what the specification of its reading says, or refuses and changes nothing |
| ContractValue.Contracts.ReadAppendix | apps/api/src/contracts/contracts.service.ts:273-285 | a request goes on exactly when the transition is allowed from the status it reads |
| ContractValue.Contracts.CreateAppendix | apps/api/src/contracts/contracts.service.ts:232-265 | a repeated key adds nothing |
| ContractValue.LineAdded | apps/api/src/contracts/contracts.service.ts:320-337 | applying an appendix adds its one line |
| ContractPayments.Payments.Pay | apps/api/src/contracts/contracts.service.ts:374-463 | a replay and a refusal change nothing; an accepted payment keeps the books if and only if the columns take it |
| ContractPayments.PayingKeepsInvExactly | apps/api/src/contracts/contracts.service.ts:393-449 | an accepted payment keeps the books (paid + outstanding = amount, outstanding >= 0, PAID exactly at 0, each project's total paid equal to its payments) if and only if every schedule's columns take the allocation as its row keeps it and the rounded parts sum to the rounded payment |
| ContractPayments.PayingKeepsInv | apps/api/src/contracts/contracts.service.ts:393-449 | in whole cents it always does |
| ContractPayments.TakesExactly | apps/api/src/contracts/contracts.service.ts:436-447 | a schedule takes an allocation that is not negative exactly when it does not end in half a cent and leaves nothing or at least half a cent |
| ContractPayments.AlmostPaid | apps/api/src/contracts/contracts.service.ts:436-447 | an allocation of all but less than half a cent leaves nothing outstanding and the status partly paid |
| ContractPayments.CountDecides | apps/api/src/contracts/contracts.service.ts:395-403 | the query finds as many schedules as there are allocations exactly when each exists in the project and none is named twice |
| ContractPayments.SnapshotIsCurrent | apps/api/src/contracts/contracts.service.ts:431-448 | without duplicates the row read at the start is still current when it is updated |
| ContractPayments.Payments.Allocate | apps/api/src/contracts/contracts.service.ts:431-449 | the update loop over the snapshot applies the allocations one after the other |
| ContractPayments.Payments.FitsAll | apps/api/src/contracts/contracts.service.ts:404-414 | the first loop passes exactly when every allocation fits its schedule's outstanding amount |
| ContractPayments.PaymentConservesExactly | apps/api/src/contracts/contracts.service.ts:415-449 | each project's paid total stays equal to its payments exactly when the paid columns, each rounded by itself, grow by what is stored of the payment |
| ContractPayments.TotalsKeptExactly | apps/api/src/contracts/contracts.service.ts:415-449 | where nothing is negative: exactly when the sum of the rounded allocations is the rounded sum |
| ContractPayments.PaymentInOrderExactly | apps/api/src/contracts/contracts.service.ts:431-449 | every schedule is in order against the allocation rows after a payment exactly when each allocated one takes its allocation |
| ContractPayments.SettledKeepsAmountExactly | apps/api/src/contracts/contracts.service.ts:436-447 | a schedule keeps its amount if and only if the allocation does not end in exactly half a cent |
| ContractPayments.FractionsBreakTotals | apps/api/src/contracts/contracts.service.ts:380-449 | an input where they do not: two allocations of four tenths of a cent |
| ContractPayments.Payments.Schedules | apps/api/src/contracts/contracts.service.ts:340-373 | refused exactly when the items exceed the value read or the contract already has schedules (the sequence numbers are unique); otherwise one unpaid schedule per item; the books are kept |
| ContractPayments.OpenedWithinValue | apps/api/src/contracts/contracts.service.ts:346-372 | in whole cents, the schedules of a contract promise no more than the value that was read |
| ContractPayments.AddedKeepsInv | apps/api/src/contracts/contracts.service.ts:353-371 | a new unpaid schedule keeps the books |
| Totals.TotalRemove | apps/api/src/contracts/contracts.service.ts:374-463 | a table's sum does not depend on the order of its rows |
| Cents.MoveKeepsSumExactly | apps/api/prisma/schema.prisma:2089-2116 | two-decimal columns keep their sum under a move if and only if it does not end in exactly half a cent |
| Cents.WholeAddedExactly | apps/api/prisma/schema.prisma:1815-1821 | adding whole cents and rounding commute if and only if the amount does not end in half a cent or stays on its side of zero |
| RateLimiter.WindowBound | apps/api/src/auth/auth.service.ts:446-460 | with a clock that does not go back, no half-open window of fifteen minutes holds more than the limit of accepted attempts of a key since its last eviction |
| RateLimiter.Limiter.CheckRate | apps/api/src/auth/auth.service.ts:446-460 | accepted exactly below the limit; a rejected attempt leaves the state as it was; the map never holds more than 10,000 keys |
| RateLimiter.RunSound | apps/api/src/auth/auth.service.ts:446-460 | what is kept of a key's accepted attempts is the part still in the window, and any limit + 1 of them span it |
| RateLimiter.AfterKeeps | apps/api/src/auth/auth.service.ts:458-459 | setting and evicting keep the map in order and the accepted key in it |
| RateLimiter.SpacedWindow | apps/api/src/auth/auth.service.ts:454-457 | a log whose every limit + 1 entries span the window has at most the limit in any window |
| RateLimiter.RecentIsSuffix | apps/api/src/auth/auth.service.ts:454-456 | filtering an ordered list by the window keeps a suffix |

## Left out

- Deployment.Operator.Rollback: the running services and their loaded configuration are not modelled, only the files, the gate and the network table.
- Deployment.Operator.Activate: temporary files that an interrupted install leaves beside the edge's configuration are not modelled.
- Allocation.AllocateAmount: divides exactly; decimal.js keeps 20 significant digits, so totals whose shares need more are not covered.
- ChatHistory.ValidHistory: the tables do not change during one call; only the clock moves.
- EdgeAdmission.DrainCertificate: WebSocket upgrades are not counted by the edge and not modelled; the API's own counter starts after its guards and is not claimed.
- EdgeAdmission.EdgeWithinApi: request targets in other than origin form, fragments, tabs and line breaks, which the URL parser removes, the host parser, what the proxy library rewrites on the way, and a gate that changes between the edge's and the API's reading are not modelled.
- DepartmentForest.RunKeepsForest: commands are serial; of interleaved ones, pairs are decided (`DepartmentForest.InterleavedExactly`), and an update's walk is taken as one reading of the table.
- UploadProtocol.CapacityAlways: bounds object rows only while no upload session was opened, as the code does.
- OfficeDocument.TextIsTraversal: starts from the events of a well-formed tree; the XML parser, UTF-8 decoding and the raw size limit are not modelled, and texts are measured by an abstract byte length.
- OfficeArchive.BoundedOfficeParts: inflation and UTF-8 decoding of names are abstract functions of their input.
- RateLimiter.WindowBound: is per process and per key since its last eviction, as the code is.
- Hashes, UUIDs, checksums and key formats: abstract; fresh identifiers are assumed fresh.
- A transaction's outcome is decided before the client's failure path looks at the database.
- FileCapacity.Usage: of deleted files leaves out those retired with a released session, not files that a user deleted; counts no finished sessions without a file among the permanent bytes; the tables hold the rows that count.
- UploadProtocol.RetiredExactly: a retiring step may come at any time; the tests for it (the session's status, references to the file) are not modelled.
- FileCapacity.CheckFileCapacity: takes the actor's two counts as the queries report them; the disk-space test `uploadDiskFits` is not modelled.
- OfficePresentation.CheckParts: takes the banned names and the XML rules inside parts as predicates.
- OfficePresentation.PptxParts: takes the XML conditions on the main part, the root relation and the workbooks as predicates.
- `file-storage.ts`: the directory scan that finds final objects without rows; directory creation and permissions.
- `uploads.service.ts`: resumable uploads are quantities charged to the quota; of the reaper the expired-reservation pass and the retiring, removing and releasing of sessions are modelled, not the pending objects and staging directories of sessions.
- `departments.service.ts`: codes, names, audit rows; reads.
- `commercial.service.ts`: validity dates, terms, sections, approvals and history rows; project locks and permission queries other than their verdicts.
- `contracts.service.ts`: the contract's own status, retention amounts and receivables; the schedules' value bound is claimed for the value read at the time, not for later appendices.
- `project-financial-calculations.ts`: `calculateEstimateLine`, `sumEstimateCosts`, `expectedMonetaryValue`, `estimateAtCompletion` (single expressions).
- `quotation-documents.service.ts`: the PDF and XLSX writers.
- `office-document.ts`: `docxParts` relation checks.
- `deploy-mcp-release.py`: plan and checksum verification, health and public probes enter as outcomes only.
- Controllers, DTO validation, the web application, e-mail, project chat workers and the rest of the repository.
