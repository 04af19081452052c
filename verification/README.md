# Verified models of the document service

These Dafny modules model the state machines and algorithms of the service and prove what
its code and documentation promise of them. `dafny verify dfyconfig.toml` checks everything.

**Ingestion, deletion and indexing.** `Jobs` is the PostgreSQL job queue: claims that skip
locked rows, attempts counted at the claim, ownership checks, retry delays. Every worker has
an id of its own: two processes that both keep the default of `worker_id`, the constant
"worker" (`app/core/settings.py:134`), would pass each other's ownership checks, so distinct
ids are assumed. So is a worker with an embedding provider and both vector stores, which
`run` passes on (`app/worker.py`); with the defaults of `process_one_batch`, which are None,
a ready document has chunk rows and no points. `Protocol` is a labelled transition system
over any number of documents, job rows and agents (workers, delete requests, reindex
requests). One transaction is several steps. Vector writes are visible at once; row writes
are buffered and appear at the commit, an exception or a crash throws them away, and a row
lock lasts from the locking read to the end of the transaction. The worker merges its
in-memory job into each of its transactions, so a commit may insert a job row again that a
delete removed: that step is part of the system, and the invariants are stated so that it is
allowed. `ProtocolSteps` says what each step leaves and `ProtocolProgress` that each step is
there when its turn comes. `ProtocolSafety`, `ProtocolJobs`, `ProtocolHistory`,
`ProtocolIndex` and `ProtocolCoverage` prove the invariants over all runs;
`ProtocolShortfalls` shows runs in which a promise is not kept. The state also remembers
which chunk ids were ever used (`minted`) and which job was created for a document
(`jobFor`); no step decides anything by them but the freshness of new ids.

**The evidence graph.** `EvidenceGraph` has the eight grounded subject kinds, their bindings
and locators, the PLC programs and variables of a package, and what the foreign keys do when
rows go. `EvidenceStore` runs the statements of each operation in order and is proved to end
where the specification says, or to leave everything as it was. A foreign key that sets a
composite key to null would also null the tenant column, which may not be null; reaching it
is therefore an error that aborts the transaction. Three tables refer to entities in that
way: entity candidates, relation candidates and PLC variables. The lemmas say exactly when
that happens, and `EvidenceRuns` shows runs that lead there. `EvidenceOutcomes` says what
each operation leaves, row by row and binding by binding.

**Identity resolution.** `Sorting` characterises a stable sort; `Resolution` collects, sorts
and groups mentions; `Promotion` ranks a group and merges its attributes; `Conflicts`
computes the stars of identity conflicts and the revision conflicts; `ResolverRun` and
`ResolverPlan` write the outcome to the evidence graph and prove that a second resolution
replaces the first, and `ResolverOutcome` says what one leaves; `ResolverRenaming` and
`ResolverListings` prove that the two differ in nothing but ids and, when the database lists
locators in another order, the locators of identity conflicts. `ZipPaths` gives the distinct
member paths on which this relies.

**Readers, printers and canonical text.** `PdfText` and `PdfPrinter` scan and print text
operators; `SheetGrid` reads and prints spreadsheet grids; `TextPages` cuts text into pages
and finds line numbers; `Normalization` is the canonical form of a text, and `NormalForm`
says what it makes of each word and gap; `Uploads` reads a body of unknown length.

**Supporting algorithms.** `Lists` (cutting at a separator, first occurrences, flattening),
`Assignments` (document classes and overrides), `Relations` (verdicts between documents and
the table of relations) with `RelationVerdicts` (what each verdict stands for), `Retrieval`
(replacing a document's points, and search over an untrusted index).

What lies outside is a parameter. Unicode NFC, `str.strip`/`str.lower`, `int`/`str.isdigit`,
the page-number pattern, hashing, embedding, reranking and mention extraction are arbitrary
functions; where a law of them is needed it is a named predicate (`Composes`, `KeepsEmpty`,
`ReadsDecimals`, `Streams`, `NamesItsSource`). Row ids, clocks and the order in which the
database lists rows are arguments or nondeterministic choices.

Where code and documentation differ the model follows the code. The documentation of
`normalize_text` says that three or more blank lines collapse to one; the code replaces
three or more newlines by two, so two blank lines already become one. The documentation of
`detect_relations` says that it replaces the relations a document had; it updates edges of
the same type only, and the model keeps the others. `extract_text_pages` drops everything
after the 4096th segment without notice.

## Model

| member | source | states |
|---|---|---|
| Jobs.Selected | app/services/jobs.py:76-112 | a claim takes at most `limit` distinct queued, due, unlocked jobs; all of them if there is room; and none that a job left behind should precede |
| Jobs.JobQueue.Enqueue | app/services/jobs.py:22-43 | a document with a live job gets that job back; otherwise one queued row with no attempts is added; one live job a document is kept |
| Jobs.JobQueue.Claim | app/services/jobs.py:76-124 | the selected rows, and only they, become processing, claimed by the worker, one attempt dearer |
| Jobs.JobQueue.Finish | app/services/jobs.py:127-153 | only a processing row claimed by this worker is completed; otherwise nothing changes |
| Jobs.JobQueue.Fail | app/services/jobs.py:156-201 | an owned row is queued again after the delay while attempts remain, else failed; otherwise nothing changes |
| Jobs.TransitionsSpendRank | app/services/jobs.py:106-124 | claim, finish and fail each strictly lower a measure, never more than 2 × max_attempts, and keep rows sound |
| ProtocolSafety.IndexInvKept | app/services/deletion.py:55-124 | one step of any agent keeps the lock discipline, the phases of each open transaction and that deleted documents have nothing left |
| ProtocolSafety.DeletedDocumentsLeaveNothing | app/services/deletion.py:55-124 | in every reachable state a document whose deletion has committed has no chunk rows, no profile, no chunk points and no document vector |
| ProtocolJobs.InvKept | app/worker.py:58-104 | one step keeps the agreement of rows, documents and the jobs workers hold, including the merge that re-creates a row |
| ProtocolJobs.LiveDocumentsAgreeWithTheirJob | app/services/processing.py:118-228 | in every committed state a live document is queued exactly when its job is live, ready exactly when it finished, failed exactly when it exhausted its attempts, and never processing |
| ProtocolJobs.QueueInvariant | app/services/jobs.py:76-201 | in every reachable state: one live job a document, claimed_by set exactly when processing, queued below and failed at the attempt limit, claims of different workers disjoint |
| ProtocolJobs.MergeOnlyRestoresDeletedRows | app/worker.py:66-104 | the merge inserts a row only for a document that is deleted, and what it would insert is what the worker holds |
| ProtocolHistory.RetriesAreBounded | app/services/jobs.py:106-201 | over any run one job is claimed, finished or failed at most 2 × max_attempts times in all |
| ProtocolSteps.UploadOutcome | app/services/ingestion.py:25-92 | an upload is taken exactly when the tenant has no live document with these bytes: then one queued document and one queued job that was never tried are there and all else is as before; otherwise nothing changes |
| ProtocolSteps.ClaimOutcome | app/services/jobs.py:76-124 | a claim takes the first due unlocked jobs in order, each one attempt dearer and the worker's, and nothing else changes |
| ProtocolSteps.BuildOutcome | app/services/processing.py:118-228 | the commit of a processing replaces the document's chunk rows by the new ones, sets its status, finishes the worker's own job row and touches no other document, job or point |
| ProtocolSteps.SkipOutcome | app/services/processing.py:100-117 | the commit for a deleted document finishes the job row and nothing else |
| ProtocolSteps.FailureOutcome | app/services/processing.py:250-290 | a reported failure queues or fails the worker's own job row and gives the document the same status; a row that is no longer its own stays |
| ProtocolSteps.DeleteOutcome | app/services/deletion.py:55-124 | the commit of a deletion removes exactly the document's chunk rows, profile and job rows and marks it |
| ProtocolSteps.OnlyCommitsTouchRows | app/worker.py:58-104 | no step but an upload, a claim or a commit changes a row |
| ProtocolSteps.PointsGo | app/services/vector_store.py:131-173 | clearing, deleting and emptying take all points of the document and none of another |
| ProtocolSteps.PointsCome | app/services/indexing.py:55-145 | processing puts a point for each new chunk, a reindex one for each chunk row, and other ids keep theirs |
| ProtocolSteps.VectorsChange | app/services/processing.py:118-228 | the document's vector is there or not as decided, and no other vector changes |
| ProtocolSteps.OthersLeaveVectors | app/services/deletion.py:55-124 | all other steps, aborts and crashes among them, leave the vector store as it is |
| ProtocolSteps.FailuresAreReported | app/worker.py:58-104 | after an exception the worker keeps its job and can do nothing but report the failure |
| ProtocolSteps.CrashOutcome | app/worker.py:58-104 | a crash frees what the participant had locked and leaves every row, point and vector; a claimed row stays claimed |
| ProtocolSteps.BeginningsAndEnds | app/services/reindexing.py:52-128 | participants begin with nothing in hand, and a finished reindex lets go of all its documents |
| ProtocolSteps.NobodyDisturbsOthers | app/worker.py:58-104 | no step changes what another participant is doing or has locked |
| ProtocolProgress.JobsAreOpened | app/worker.py:58-104 | a worker with a job can open its transaction, which remembers whether the row is gone |
| ProtocolProgress.FailuresAreOpened | app/services/processing.py:250-290 | a worker that holds a failed job can open the transaction that reports it |
| ProtocolProgress.DocumentsAreLocked | app/services/processing.py:85-117 | an opened job goes on as soon as its document is free: to a processing if the document is live, else to the end |
| ProtocolProgress.RowsAreReplaced | app/services/processing.py:118-228 | a processing of a live document can go on to its new chunk rows |
| ProtocolProgress.ProcessingEnds | app/services/processing.py:118-228 | a processing whose vector is settled can mark its document ready |
| ProtocolProgress.ProcessingCommits | app/services/processing.py:118-228 | a processing that has come to its end can commit |
| ProtocolProgress.WorkersMayFail | app/worker.py:58-104 | a worker inside a transaction can fail at any point |
| ProtocolProgress.DeletionsGoOn | app/services/deletion.py:55-124 | a deletion waits for nothing but the lock of its document |
| ProtocolProgress.ReindexingGoesOn | app/services/reindexing.py:52-128 | a reindex takes any live document nobody else has locked, and refreshes its vector exactly if it has chunk rows |
| ProtocolProgress.AnybodyMayBegin | app/services/ingestion.py:25-92 | uploads, workers, deletions and reindexing can always begin, and any participant can crash |
| ProtocolIndex.OneLiveDocumentPerBytes | app/services/ingestion.py:25-92 | in every reachable state no two live documents of a tenant have the same file hash |
| ProtocolIndex.DeletionIsFinal | app/services/deletion.py:55-124 | once deleted, a document stays deleted through any continuation of the run |
| ProtocolIndex.CommitPublishesItsChunks | app/services/processing.py:118-228 | the commit of a processed document makes it ready with exactly one point for each of its chunk rows |
| ProtocolIndex.ReadyDocumentsHaveNoStalePoints | app/services/indexing.py:62-138 | in every reachable state, even halfway through a reindex or after an aborted one, no point of a live ready document refers to a chunk row that is not there |
| ProtocolCoverage.ReadyDocumentsAreCovered | app/services/processing.py:179-181 | after any run a ready document has a point for every chunk row exactly when it has no chunk rows or its points were not taken away since the last time they were written: a reindex that emptied it and went no further, or a deletion that removed its points and was given up, leaves it short |
| ProtocolShortfalls.EveryReadyDocumentCanFallShort | app/services/reindexing.py:52-128 | from any reachable state, an unlocked ready document with chunk rows is left ready and short of points by a reindex that stops after emptying it, and by a deletion that stops after removing its points |
| ProtocolShortfalls.ReadyDocumentsFallShort | app/services/deletion.py:55-124 | two whole runs from the empty state that end so: upload, processing, and then the aborted reindex or the given-up deletion |
| EvidenceGraph.CandidatesGoWithTheirEntity | app/services/engineering.py:1044-1091 | when dropping a document's evidence deletes an entity, every candidate pointing at it is deleted too |
| EvidenceGraph.DropFailsOnlyOnOutsideReferences | app/engineering_models.py:871-876 | a drop is refused exactly when a relation candidate that keeps evidence, or a PLC variable of the tenant, refers to an entity that loses all of its own |
| EvidenceGraph.DropKeepsInv | app/services/engineering.py:1044-1091 | after a drop every survivor is bound to an existing locator of its tenant and every link resolves |
| EvidenceGraph.ClearKeepsInv | app/services/engineering.py:574-652 | the same after a clear, where locators still cited by others stay |
| EvidenceGraph.ClearFailsOnlyOnOutsideReferences | app/services/engineering.py:574-652 | clearing both resolver methods is refused exactly when a relation candidate, or a PLC variable of the tenant, refers to one of their entities |
| EvidenceGraph.PackageFailsOnlyOnOutsideVariables | app/services/engineering.py:174-181 | deleting a package is refused exactly when a PLC variable of another package's program names one of its entities |
| EvidenceGraph.PackageDropKeepsInv | app/services/engineering.py:174-181 | after a package is gone every other package's subjects are bound and linked as before |
| EvidenceGraph.ClearLeavesOtherMethods | app/services/engineering.py:574-652 | a clear removes every identity row of its methods with its bindings, and leaves every other one, its bindings and their locators as they were |
| EvidenceGraph.CreateKeepsInv | app/services/engineering.py:103-137 | creating a subject with checked evidence keeps the invariant |
| EvidenceGraph.PromoteKeepsInv | app/services/identity_resolution.py:290-325 | promoting a group keeps it: candidates stay inside their entity's evidence |
| EvidenceGraph.ListedEvidenceIsNeverEmpty | app/services/engineering.py:774-790 | listing a subject's evidence never comes back empty, so no conflict is skipped and no override refused for want of it |
| EvidenceGraph.ListedMeans | app/services/engineering.py:774-790 | listed are exactly the locators that a binding of the subject itself leads to |
| EvidenceOutcomes.CreateOutcome | app/services/engineering.py:442-524 | the row, its bindings to the given locators, and everything else as before |
| EvidenceOutcomes.CreationFaults | app/services/engineering.py:103-137 | a row is created exactly when its package and ends are the tenant's, a relation is not repeated or a loop, a claim has a path, and its locators exist; the fault says which fails |
| EvidenceOutcomes.PromoteOutcome | app/services/identity_resolution.py:290-325 | the entity bound to the group's locators, its candidates pointing at it, everything else as before |
| EvidenceOutcomes.ClearOutcome | app/services/engineering.py:574-652 | gone are the methods' own rows, relations with one of their entities at an end, the own rows' bindings and the locators only those cited; everything else is as before |
| EvidenceOutcomes.DropOutcome | app/services/engineering.py:1044-1091 | gone are the document's locators, the bindings that cite them, the rows that lost their last binding and relations with such an entity at an end; everything else is as before |
| EvidenceOutcomes.PackageOutcome | app/services/engineering.py:174-181 | gone are the package, its rows, its programs and their variables; everything else is as before |
| EvidenceRuns.DropAssignmentsOutcome | app/services/deletion.py:105-110 | the tenant's assignments of the document go and no other row |
| EvidenceRuns.RunsKeepInv | app/services/deletion.py:55-124 | every run of adding packages, programs and variables, creating, recording, promoting, overriding, clearing, dropping a document's evidence and deleting packages keeps the invariant |
| EvidenceRuns.SubjectsStayGrounded | app/services/engineering.py:1032-1041 | after any such run from the empty graph every subject of the eight kinds has a binding to an existing locator of its own tenant |
| EvidenceRuns.RefusedByVariable | app/services/engineering.py:834-862 | a run from the empty graph, with no relation candidate at all, after which a drop and a clear are both refused because a PLC variable names the entity |
| EvidenceRuns.RefusedByRelationCandidate | app/engineering_models.py:521-526 | a run from the empty graph, with no PLC variable, after which a drop and a clear are both refused because of a relation candidate |
| EvidenceRuns.PackageRefusedByVariable | app/services/engineering.py:174-181 | a run from the empty graph after which a package cannot be deleted because a variable of another package's program names its entity |
| EvidenceStore.EntitiesLast | app/services/engineering.py:1032-1041 | deleting entities after all other kinds meets the obstacles of deleting all at once and leaves the same rows |
| EvidenceStore.DeleteStep | app/engineering_models.py:567-586 | whatever refers to entities, of the deletes of a clean-up only the last, that of entities, can be refused, exactly when deleting all at once would be |
| EvidenceStore.Store.BindAll | app/services/engineering.py:103-137 | no evidence, or evidence unknown to the tenant, is refused; otherwise one binding for each locator is added |
| EvidenceStore.Store.Create | app/services/engineering.py:442-524 | the row and its bindings are added together, or nothing changes and the fault is the first check that fails, repeated relations and missing dependency paths included |
| EvidenceStore.Store.Promote | app/services/identity_resolution.py:290-327 | one entity bound to the whole group's evidence, then every candidate of the group points at it; or nothing changes |
| EvidenceStore.Store.ClearPackageIdentities | app/services/engineering.py:574-652 | ends in the cleared graph; or changes nothing, exactly when the package is not the tenant's or one of the three kinds of reference to a deleted entity stands in the way |
| EvidenceStore.Store.DropDocumentEvidence | app/services/engineering.py:1044-1091 | removes the document's locators, the bindings that cite them, the rows that lost their last binding and relations with such an entity at an end; or changes nothing, exactly when one of the three kinds of reference to a deleted entity stands in the way |
| EvidenceStore.Store.DeletePackage | app/services/engineering.py:174-181 | a package the tenant does not have is left; otherwise it goes with its rows, or the delete is refused by another package's PLC variable and changes nothing |
| EvidenceStore.Store.CreateProgram | app/services/engineering.py:793-831 | a program is added to a package the tenant has; otherwise nothing changes |
| EvidenceStore.Store.CreateVariable | app/services/engineering.py:834-862 | a variable is added exactly when its program and the entity it names, of whatever package, are the tenant's; otherwise nothing changes |
| Sorting.SortIsStable | app/services/identity_resolution.py:177-184 | the sort is sorted, a permutation, and keeps ties in order |
| Sorting.OnlyOneStableOrder | app/services/identity_resolution.py:177-184 | two sorted arrangements with the same ties are equal: a stable sort has one possible result |
| Sorting.TextComesBefore | app/services/identity_resolution.py:177-184 | texts are ordered by the first character in which they differ, a beginning first |
| Resolution.MentionsForMembers | app/services/identity_resolution.py:146-185 | the sorted mentions of all classed members, or none when one of them has no key or no content |
| Resolution.MentionsOutcome | app/services/identity_resolution.py:146-185 | with distinct paths the sorted mentions are those extracted from the classed members, and there are none exactly when the content of one cannot be found |
| Resolution.MemberKeyOutcome | app/services/package_assignment.py:61-73 | the key of a path is that of its first member that has one |
| Resolution.KeyOrderMeans | app/services/identity_resolution.py:177-184 | mentions are ordered by kind, then name, then path, then locator |
| Resolution.MemberOrderDoesNotMatter | app/services/identity_resolution.py:152-185 | with distinct member paths every permutation of the members gives the same mention sequence |
| Resolution.GroupMentions | app/services/identity_resolution.py:197-201 | the groups under their keys in order of first appearance |
| Resolution.GroupsPartition | app/services/identity_resolution.py:197-201 | every usable mention is in exactly one group, that of its kind and name, and no group is empty |
| Resolution.GroupsOutcome | app/services/identity_resolution.py:197-201 | a mention is grouped exactly when its name has 1 to 255 characters; groups stand in the order in which their keys first appear |
| Resolution.GroupsAreRuns | app/services/identity_resolution.py:177-201 | read in order, the groups of the sorted mentions are the usable mentions |
| Promotion.MergedAttributes | app/services/identity_resolution.py:339-348 | the loop over ranked mentions computes the merge |
| Promotion.MergePrefersRank | app/services/identity_resolution.py:330-348 | an attribute is merged exactly when some mention has a value for it, and its value is that of the highest-ranked such mention, the first of equals |
| Promotion.CurrentBeatsSuperseded | app/services/identity_resolution.py:45-49 | a superseded mention never overrides a value that a current one has |
| Promotion.PrecedenceOfSources | app/services/identity_resolution.py:45-64 | the whole order of roles and of document classes |
| Promotion.HighestDecides | app/services/identity_resolution.py:330-348 | a mention that no other with a value equals or outranks by role, class and confidence decides an attribute |
| Promotion.EntityOutcome | app/services/identity_resolution.py:251-305 | which attributes the entity has, and which files support or contradict it |
| Promotion.AliasesOutcome | app/services/identity_resolution.py:251-289 | the aliases are those of all mentions in order, each once and without the name |
| Promotion.PromoteGroup | app/services/identity_resolution.py:251-289 | computes the canonical entity of a group |
| Promotion.EntityRepresentsItsGroup | app/services/identity_resolution.py:251-305 | the entity carries the group's key, its primary is the first of the highest ranked among those not superseded, confidence is the greatest there, aliases are those of the group without its name and without repetition |
| Conflicts.IdentityConflicts | app/services/identity_resolution.py:359-410 | the loops with `seen_pairs` compute the stars of all comment and address groups, each pair once |
| Conflicts.PairsShare | app/services/identity_resolution.py:363-410 | every recorded pair shares a comment or an address |
| Conflicts.NoPairTwice | app/services/identity_resolution.py:375-392 | no unordered pair is recorded twice and no signal conflicts with itself |
| Conflicts.SharersAreJoined | app/services/identity_resolution.py:363-410 | any two signals sharing a comment or an address are joined directly or through one common anchor |
| Conflicts.PairsAgree | app/services/identity_resolution.py:363-410 | a pair has equal comments or equal addresses, and its first has the earlier name |
| Conflicts.FirstJoinsAll | app/services/identity_resolution.py:375-392 | the first by name of those that share a comment or an address is joined to every other |
| Conflicts.RevisionConflicts | app/services/identity_resolution.py:412-438 | a revision conflict joins the first current and first superseded mention of a group exactly when both exist and differ in a domain attribute |
| Conflicts.RevisionsDiffer | app/services/identity_resolution.py:434-438 | current and superseded mention conflict exactly when role, quantity, revision, power, address or comment differ |
| ResolverRun.PerformKeepsInv | app/services/identity_resolution.py:188-248 | each write of a resolution keeps the graph's invariant |
| ResolverRun.PlannedRun | app/services/identity_resolution.py:188-248 | a planned resolution goes through without a refusal, keeps the invariant, and only adds rows bound to new locators |
| ResolverRun.ClearUndoes | app/services/identity_resolution.py:119-133 | clearing takes back exactly what a resolution added |
| ResolverRun.RerunReplaces | app/services/identity_resolution.py:119-133 | after one resolution, clearing gives the graph the first run started from, so a second run leaves what a single run would |
| ResolverPlan.SignalsAreDistinct | app/services/identity_resolution.py:359-369 | the canonical signals of a resolution have distinct names, so the conflict lemmas apply to it |
| ResolverPlan.PlanIsWellPlanned | app/services/identity_resolution.py:188-248 | every write of a resolution uses new ids and cites locators recorded before it |
| ResolverPlan.PersistResolution | app/services/identity_resolution.py:188-248 | the loops leave the graph with exactly the planned candidates, entities and conflicts |
| ResolverPlan.ResolvePackage | app/services/identity_resolution.py:68-143 | an incomplete or empty archive changes nothing; otherwise the package's earlier identities are replaced, or the clear is refused and nothing changes |
| ResolverPlan.ResolvingAgainReplaces | app/services/identity_resolution.py:119-133 | resolving the same mentions again leaves exactly the graph of a single resolution with the second run's ids |
| ResolverOutcome.SignalsOutcome | app/services/identity_resolution.py:359-370 | the signals are the entities of that kind, with their comment and address where these are texts and not empty |
| ResolverOutcome.FindingsAreMeant | app/services/identity_resolution.py:372-432 | a conflict for each recorded pair of entities, with one locator of each, and one for each group whose current and superseded mention disagree, with the locators of these two |
| ResolverOutcome.ResolutionOutcome | app/services/identity_resolution.py:188-248 | in the end there is a candidate for every grouped mention, bound to its own locator in the document and pointing at its group's entity; an entity for every group, bound to the locators of the group; the conflicts above, bound to theirs; and no other new row |
| ResolverListings.PlansRename | app/services/identity_resolution.py:188-248 | two resolutions of the same mentions plan the same writes, each id of the first supply replaced by the one in the same place of the second, but for the locators that identity conflicts cite; all of it is the same exactly when the database lists the same locators first |
| ResolverRenaming.RunsMirror | app/services/identity_resolution.py:188-248 | a planned run and its renamed image leave rows, locators and bindings that correspond one to one |
| ResolverListings.ResolvingAgainRenames | app/services/identity_resolution.py:375-410 | for any two orders in which the database lists an entity's locators, resolving a package again leaves what the first resolution left with ids renamed, rows, locators and all bindings but those of identity conflicts, and touches nothing else; the whole graphs correspond exactly when the same locators come first for every recorded pair |
| ResolverListings.ListingsMatter | app/services/engineering.py:774-790 | an input on which they differ: two entities of two mentions each that share a comment, listed in one order and then in the other |
| ZipPaths.SafePathIsNormal | app/adapters/zip_unpack.py:125-143 | an accepted path is relative, of plain parts only, within the length limit, and accepting it again changes nothing |
| ZipPaths.PathOutcome | app/adapters/zip_unpack.py:125-143 | a path is accepted exactly when it does not begin at the root, no part is two dots or holds a colon, some part counts and the whole has at most 240 characters; the parts that count are joined |
| ZipPaths.EntryOutcome | app/adapters/zip_unpack.py:60-117 | the limits of one entry in numbers: 50 MiB, a ratio of 200 from 256 bytes on, as many bytes as declared |
| ZipPaths.ArchiveOutcome | app/adapters/zip_unpack.py:60-117 | the limits of the archive in numbers: 256 entries, 80 MiB, distinct paths |
| ZipPaths.SafeUnpack | app/adapters/zip_unpack.py:60-117 | the loop succeeds exactly when unpacking does, with its members |
| ZipPaths.UnpackingIsFair | app/adapters/zip_unpack.py:60-117 | unpacking succeeds exactly when every entry is acceptable by itself, paths are distinct and the total is within the limit, and gives every file in order with its content |
| PdfText.IterPdfStrings | app/adapters/extract.py:61-86 | the index loop finds the strings of the specification |
| PdfText.OnlyOperands | app/adapters/extract.py:61-86 | for any bytes, what is found lies between an opening parenthesis and `) Tj` |
| PdfText.UnescapeUndoesEscape | app/adapters/extract.py:99-104 | the three sequential replacements undo the escaping of every line, up to Latin-1 |
| PdfText.ScanPrinted | app/adapters/extract.py:61-86 | scanning printed pieces finds exactly the escaped lines, in order |
| PdfText.ExtractPdfPages | app/adapters/extract.py:89-128 | pages open at title blocks; beyond any limit there are no pages |
| PdfText.PagesOutcome | app/adapters/extract.py:89-128 | a page is its lines joined, numbered by its text or else its place; the limits in numbers; what opens a page |
| PdfText.LatinOutcome | app/evaluation/formats.py:43-45 | a character beyond Latin-1 becomes a question mark, the others stay |
| PdfText.InnerOpening | app/adapters/extract.py:61-86 | a parenthesis opened inside a shown string belongs to it |
| PdfText.UnshownString | app/adapters/extract.py:61-86 | a string that is closed but not shown is given up |
| PdfText.RestartsAtLatest | app/adapters/extract.py:61-86 | unless a later parenthesis was opened in it: then the string begins there |
| PdfText.EscapedCharacter | app/adapters/extract.py:61-86 | an escaped character opens and closes nothing |
| PdfPrinter.PageOperations | app/evaluation/formats.py:48-61 | the operators show the lines in order, inside unnested text blocks of at most 52 lines, and open no other string; line k stands at height 780 − 14 · (k mod 52) |
| PdfPrinter.Assemble | app/evaluation/formats.py:72-84 | cross-reference entries point at the objects they number, `startxref` at the table, and the file's strings are the escaped lines |
| PdfPrinter.BuildMultipagePdf | app/evaluation/machine_intelligence/artifacts.py:448-498 | pages refer to their contents and font by the right numbers; scanning the file finds the escaped lines of all pages |
| PdfPrinter.Pdf | app/evaluation/formats.py:48-84 | scanning the file finds exactly the escaped lines |
| PdfPrinter.PrintedLinesComeBack | app/adapters/extract.py:89-112 | unescaping the strings of a printed file gives every line back, cut to 110 characters in Latin-1 |
| PdfPrinter.PagesComeBack | app/adapters/extract.py:108-117 | pages of lines come back as the same pages exactly when each later page opens with a title block and nothing else does |
| PdfPrinter.PrintAndRead | app/evaluation/machine_intelligence/artifacts.py:448-498 | printing and reading gives the pages back within the limits, and nothing beyond them |
| SheetGrid.ReadA1Column | app/adapters/extract.py:254-266 | letters are a base-26 number, more than three letters or more than 64 columns are refused, no letters give zero |
| SheetGrid.ReadingKeepsCaps | app/adapters/extract.py:281-311 | whatever the addresses, the counter equals the number of cells held and no row, column or cell cap is passed |
| SheetGrid.SheetMatrix | app/adapters/extract.py:281-311 | the growing loops compute the specified grid or refusal |
| SheetGrid.CellTextOutcome | app/adapters/extract.py:244-311 | inline, shared and plain values, a missing value, and a shared number out of range |
| SheetGrid.ColumnOutcome | app/adapters/extract.py:254-266 | the number of a column of one, two or three letters |
| SheetGrid.PutCellOutcome | app/adapters/extract.py:281-311 | a cell's text stands at its column, the row is padded with empty texts up to it, all else is as before; or which limit refuses it |
| SheetGrid.RowNumberOutcome | app/adapters/extract.py:269-279 | a row goes to its number, of at most five digits and between 1 and 4096, or after the last one |
| SheetGrid.CellsInOrder | app/adapters/extract.py:281-311 | the cells of a row are put one after the other, and a refusal ends it |
| SheetGrid.RowsInOrder | app/adapters/extract.py:281-311 | so are the rows of a sheet |
| SheetGrid.PrintSheet | app/evaluation/formats.py:116-145 | every cell is printed with its address and the index of its text among shared strings stored once each |
| SheetGrid.SheetsComeBack | app/adapters/extract.py:281-311 | reading a printed sheet gives the table back exactly when it is within the caps |
| SheetGrid.PrintAndRead | app/evaluation/formats.py:116-145 | printing and reading returns the rows, past column Z by position, or a refusal beyond the caps |
| Normalization.PassesCanonicalize | app/services/normalization.py:33-38 | the passes give a canonical text with the words of their input |
| Normalization.CanonicalIsFixed | app/services/normalization.py:33-38 | canonical texts are left alone by every pass |
| Normalization.NormalizedIsCanonical | app/services/normalization.py:20-38 | the result is canonical and composed, and has exactly the words of the composed input |
| Normalization.ImageIsCanonical | app/services/normalization.py:20-38 | the fixed points, the image, and the canonical composed texts are the same |
| Normalization.NormalizeIsIdempotent | app/services/normalization.py:1-10 | normalizing twice is normalizing once |
| Normalization.LineEndingsDoNotMatter | app/services/normalization.py:15-32 | CR, LF and CRLF variants of a text have the same normal form |
| NormalForm.PassesTidyGaps | app/services/normalization.py:20-38 | of any text made of words and gaps, the words stay, what stands around them goes, and each gap becomes a space if it breaks no line, else one line break or two, with a space after them if its last line is not empty |
| NormalForm.NormalizedIsTidied | app/services/normalization.py:20-38 | every text is made of words and gaps or blank, so this says what any text is normalized to; a blank one to nothing |
| TextPages.ExtractTextPages | app/adapters/extract.py:131-160 | the pages are the non-blank ones among the first 4096 segments, or none beyond the character limit |
| TextPages.TextPagesOutcome | app/adapters/extract.py:131-160 | however the text is cut at form feeds: of the first 4096 pieces those that are not blank are the pages, in order and numbered, unless they have more than 1048576 characters |
| Lists.SplitCutsTheText | app/adapters/extract.py:140-147 | the segments are the only pieces without a separator that give the text when joined by it |
| TextPages.NewlineOffsets | app/services/entity_extract.py:598-599 | exactly the positions of the newlines, ascending |
| TextPages.LineOf | app/services/entity_extract.py:602-603 | the binary search gives one plus the number of newlines before the position |
| Uploads.ReadUploadBounded | app/services/uploads.py:175-210 | for any chunking it ends, pulls at most one byte more than the limit, returns exactly the content and its hash within the limit, and refuses otherwise |
| Assignments.ApplyPackageIdentity | app/services/classification.py:220-259 | computes the decisions with a shared machine code |
| Assignments.IdentityIsShared | app/services/classification.py:220-259 | nothing changes, or all files that go to a machine name the one code of the package; others are untouched |
| Assignments.SharingOutcome | app/services/classification.py:220-259 | a package with one code shares it, under its first given name, with one reason more and no more confidence than 0.88; no other package changes |
| Assignments.PackageIdentityIsIdempotent | app/services/classification.py:220-259 | sharing twice is sharing once |
| Assignments.Package.ClassifyAndAssign | app/services/package_assignment.py:236-310 | the loop over files leaves the specified tables and counts the rows it created |
| Assignments.Package.AssignOne | app/services/package_assignment.py:236-310 | one file of the loop: the specified tables, and whether the file got a new row |
| Assignments.Package.OverrideAssignment | app/services/package_assignment.py:326-397 | the old row is superseded and otherwise as it was; the new one has the given class, machine and assembly, or the old ones where none is given, is accepted and the current row of the path; an unknown id changes nothing |
| Assignments.AssignOutcome | app/services/package_assignment.py:236-310 | which machine, assembly and row one file of a classification leaves, row by row |
| Assignments.AssignInOrder | app/services/package_assignment.py:236-310 | files are classified one after the other, in order |
| Assignments.CurrentIsLatest | app/services/package_assignment.py:171-179 | the active row of a path is the first of the latest |
| Assignments.CorrectionIsCurrent | app/services/package_assignment.py:326-380 | a correction of an active row is the active row of its path |
| Assignments.RunsKeepIds | app/services/package_assignment.py:326-397 | over any run no two rows have the same id |
| Assignments.AssignKeepsUniqueness | app/services/package_assignment.py:236-310 | one file keeps at most one active row a path exactly when its active row is the classifier's, an override or absent |
| Assignments.OverrideKeepsUniqueness | app/services/package_assignment.py:326-380 | an override keeps it exactly when no other row is active at the path |
| Assignments.CorrectingTwiceBreaksUniqueness | app/services/package_assignment.py:326-380 | correcting the same row twice always leaves two active rows at its path |
| Assignments.SupersededRowsCanBeCorrected | app/services/package_assignment.py:326-380 | a run from the unassigned package, one classification and one correction, after which correcting the superseded row does so |
| Assignments.RunsKeepUniqueness | app/services/package_assignment.py:171-179 | every run of classifications and corrections of active rows keeps at most one active row a path |
| Assignments.OverridesPersist | app/services/package_assignment.py:241-243 | a human override stays the active row through any number of classifications |
| Assignments.ClassifyingAgainCreatesNothing | app/services/package_assignment.py:255-262 | a second classification of the same files changes nothing |
| Relations.ComputeOverlap | app/services/relations.py:57-69 | the loop with a `seen` set computes the overlap |
| Relations.OverlapCountsCommonKeys | app/services/relations.py:57-69 | the number of shared values is the number of common keys |
| Relations.VerdictIsSymmetric | app/services/relations.py:72-165 | comparing the other way round gives the same verdict and score |
| Relations.VerdictIsMonotone | app/services/relations.py:72-165 | stronger signals on either side never give a less certain verdict |
| RelationVerdicts.VerdictIsFirst | app/services/relations.py:72-165 | when each kind applies, told on hashes, numbers of common keys and thresholds; the verdict is the first that applies, from identical bytes to merely related, and its score |
| RelationVerdicts.OverlapIsReported | app/services/relations.py:57-69 | each key that both documents have is reported once, in the order of the left document and in the spelling of its first occurrence there |
| RelationVerdicts.SimilarityOutcome | app/services/vector_store.py:340-373 | a document is near exactly when it is among the first points of others, and as near as its last such point says, cut to between zero and one |
| RelationVerdicts.DetectOutcome | app/services/relations.py:167-347 | both edges, with score and reason, for every live candidate of the tenant on which there is a verdict, and no other change |
| Relations.SimilaritiesAreBounded | app/services/vector_store.py:340-373 | whatever the index replies, similarities leave out the document itself and are between zero and one |
| Relations.RelationTable.Detect | app/services/relations.py:294-347 | both directions of every verdict are written, and other edges stay |
| Relations.RelationsStaySound | app/services/relations.py:317-347 | after any run of detections and deletions the table is symmetric with equal marks, without self-edges, scores in range |
| Retrieval.VectorIndex.UpsertChunks | app/services/vector_store.py:131-173 | the document's points are replaced; mixed dimensions leave it without points; other documents' points stay |
| Retrieval.IndexDocument | app/services/indexing.py:55-145 | which error comes when, and what each leaves; on success the point of every chunk has the vector that the embedding gave for its text, no other point is the document's, and the provider is recorded |
| Retrieval.TextsInOrder | app/services/indexing.py:55-145 | the embedding is asked for the texts of the chunks, in order |
| Retrieval.PointsAreStored | app/services/indexing.py:55-145 | a chunk has the vector of its own place, for distinct chunk ids |
| Retrieval.IndexedPointsAreTheChunks | app/services/indexing.py:62-138 | after indexing, the document's point ids are exactly its chunk ids and other documents' points are unchanged |
| Retrieval.Search | app/services/retrieval.py:41-139 | the hits are the first of the reranked, sorted, eligible chunks |
| Retrieval.ScoresOutcome | app/services/vector_store.py:34-44 | a chunk's score is the last one the index replied for it, or one if that is more |
| Retrieval.EligibleMeans | app/services/retrieval.py:84-120 | which chunks may answer |
| Retrieval.RerankOutcome | app/services/retrieval.py:142-170 | a reranker is asked for the texts in order, and each hit of the result has the score given to its text |
| Retrieval.SearchIsSafe | app/services/retrieval.py:84-139 | for any reply: at most `limit` different hits, each a live chunk of the tenant in the current embedding space, in descending score |
| Retrieval.SearchIsComplete | app/services/retrieval.py:84-139 | when there is room, every eligible chunk is among the hits |
| Retrieval.FailedRerankKeepsVectorOrder | app/services/retrieval.py:142-170 | a failing or mismatched reranker leaves the order and scores of the index |

## Left out

- Routes, middleware, settings, health checks, the web cockpit and migrations: no hard property.
- Object storage: objects are written before the commit and keys roll back with the row, so nothing is claimed about removed objects.
- Foreign clients (language models, vector service, parsers): arbitrary functions that may fail, and a map from point ids to payloads.
- Tenant-wide reindexing is one agent that locks several documents in one transaction; its counters are not modelled.
- A crashed worker's job stays processing: there is no lease, and no progress is claimed.
- Job rows of deleted documents: the worker's merge may insert one again, so their absence is not claimed.
- Bindings whose subject went by a cascade stay, since the subject has no foreign key; the model claims grounding, not the absence of such bindings.
- EvidenceStore.Store.Create: does not model checks on single columns, such as the range of a confidence; a row that fails one is refused and changes nothing.
- Statements that fail for reasons outside the model (incomplete locators, values too long) abort their transaction and change nothing, so no invariant depends on them.
- Machines, assemblies, PLC blocks and PLC references, and the keys that lead to them from other packages: deleting a package that such a key holds is refused and changes nothing, so no invariant depends on it.
- The canonical relation of a relation candidate: no code sets that column.
- Evidence of package assignments is treated with the other grounded subjects in `EvidenceGraph`, not again in `Assignments`.
- Document classification by path rules and text patterns: a finite decision list.
- Delimited tables and the rows built from a matrix: straightforward loops over the grid.
- XML and ZIP decoding and the part-size check: rows and cells are taken as parsed, entries with their payload.
- Literal PDF strings with balanced parentheses: the scanner restarts at the latest one, so the round trip is claimed for escaped, printed text.
- `splitlines` and `csv.reader` of the printers: the model starts from lines and rows.
- Memory exhaustion while reading: not modelled.
- Sorted path lists in the record of a resolution: kept as sets of supporting and contradicting paths.
- Relation reasons: the candidate itself stands for the explanation that is stored.
