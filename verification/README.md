# rustend in Dafny

A model of rustend's synchronisation protocol and proofs about it: a server that keeps an
append-only graph of revisions, and any number of clients that edit offline, push and pull.
All parties take steps in any interleaving, at the granularity of single database queries on
the server and single object updates on the client; requests and answers can be lost.

## Layout

| file | contents |
|---|---|
| `Core.dfy`, `Dag.dfy` | revisions, lineage, protocol records; the ancestor relation |
| `HeadIndex.dfy` | the incremental head index and the frontier it must equal |
| `Push.dfy`, `PushLaws.dfy`, `ServerRuns.dfy` | validation query by query, the constrained commit, laws of whole pushes, all runs of concurrent pushes |
| `Codec.dfy`, `Pull.dfy` | rows and parent rows, the five reads of a pull |
| `Filter.dfy`, `FilterLaws.dfy` | the filter language, and what it means on the documents alone |
| `ClientModel.dfy` | local edits, record statuses, head reconciliation |
| `Network.dfy`, `NetworkInv.dfy`, `NetworkPulls.dfy` | the whole system, its steps and its inductive invariant |
| `Guarantees.dfy`, `Rejection.dfy` | what every run guarantees, which pushes are accepted or misreported, and what a rejection means for good |
| `LocalWork.dfy`, `Sync.dfy` | what edits do in a run and how record statuses move; undisturbed rounds that catch everybody up |
| `Convergence.dfy` | conflict resolution under interleaving, and the ways a head can be lost |
| `Scenario.dfy` | two runs in full: from an edit on one client to its arrival on another, and a push repeated after a lost answer |
| `ServerDb.dfy`, `ClientDb.dfy` | the mutable stores and the loops of the program, proved against the value model |

Runs are sequences of events; `After(events)` is the state they lead to, and an event that is
not possible in a state leaves it as it is, so a lemma about `After(events)` speaks of every
reachable state.  What the databases leave open (the order of unordered query results, ids,
clocks) is an argument of the event.

## Assumptions

- Revision and object ids created by a client are new; every client id is registered.
- A committed push is one step: its transaction id is allocated and becomes visible together,
  so ids become visible in increasing order (gaps in the id sequence are possible).
- A client edit, and the application of one object of a pull answer, is one step.  What is lost
  if one falls between the other's read and write of the heads is stated by
  `Convergence.EditDuringReconcile` (an edit inside a reconciliation) and
  `Convergence.UpdateDuringEdit` (an update inside an edit).
- Pulls in `Network` are unfiltered and use the stored cursor.
- `resolve_conflict` is given all heads of the object, at most 32768 of them.
  `Convergence.PartialResolutionLosesHeads` and `Codec.RevisionRoundTrip` say exactly what
  happens otherwise.

## Where the code does not do what one would expect

- Pending revisions are sent in id order, so a child can precede its parent and be rejected
  (`Guarantees.PendingOrderCanReject`); `Guarantees.PendingAcceptance` gives the exact
  condition for full acceptance.  A revision rejected this way is never sent again, and nothing
  built on it can ever be stored (`Rejection.RejectionIsFinal`).
- The design document calls retrying a push safe.  It is safe for the server, but the client
  then records as rejected exactly the revisions that were stored before
  (`Guarantees.RetriedPushIsMarkedError`; `Scenario.RetryAfterLostAnswer` is such a run).
- Pull reads the local heads and replaces them in two transactions; an edit in between is lost
  exactly if the heads were going to be replaced (`Convergence.EditDuringReconcile`, input in
  `Convergence.LocalEditIsLost`).
- An edit, too, reads the local heads and replaces them in two transactions; a head that a pull
  brings in between stays covered exactly if it is an ancestor-or-equal of a parent of the edit
  (`Convergence.UpdateDuringEdit`, input in `Convergence.IncomingHeadIsLost`).
- `resolve_conflict` only demands that the parents are heads but then drops all heads; a head
  stays covered exactly if it is an ancestor-or-equal of a named parent
  (`Convergence.PartialResolutionLosesHeads`, input in `Convergence.ThirdHeadIsLost`).
- Parent positions are 16-bit; beyond 32768 parents the stored order is lost
  (`Codec.RevisionRoundTrip`), though no parent is (`Codec.BatchReadsAs`).

## Model

| member | source | states |
|---|---|---|
| Guarantees.NothingIsMissed | rustend-client/src/sync.rs:88-123 | in every run, every revision in a transaction up to a client's stored cursor is an ancestor-or-equal of one of that client's heads of its object |
| Guarantees.NoLocalWorkIsLost | rustend-client/src/repository.rs:110-191 | in every run, every revision a client ever created is still recorded there and is an ancestor-or-equal of a current local head |
| Guarantees.RemovedHeadsAreStored | rustend-client/src/sync.rs:95-117 | a local head that applying an object update removes is a direct parent of an incoming head and already stored on the server |
| Guarantees.SyncedMeansStored | rustend-client/src/sync.rs:50-58 | in every run, a record marked synced is on the server with equal fields, and a pending one was created by this client |
| Guarantees.AnsweredPushLeavesNothingPending | rustend-client/src/sync.rs:45-58 | in every run, once an answer is applied every revision that push sent is still recorded as it was and none is still pending |
| Guarantees.CaughtUpMeansEverything | rustend-server/src/handlers/pull.rs:18-32 | a client whose cursor has reached the latest transaction covers every revision of the server |
| Guarantees.LocalHeadsAreRevisions | rustend-client/src/idb/object_heads.rs:83-96 | in every run, a local head record has its key, and the type, content and lineage of the revision as it was created; its data is there exactly for active content |
| LocalWork.EditTakesEffect | rustend-client/src/repository.rs:133-191 | in every run, an update or delete with a new id takes effect if and only if the parent is the only local head: the graph gains the revision with the parent's type and the given content, author and time, it is pending, the only local head, and in every batch the client may push; nothing else changes |
| LocalWork.SaveTakesEffect | rustend-client/src/repository.rs:110-131 | the same for a new object: a root revision with the given type and data |
| LocalWork.ResolveTakesEffect | rustend-client/src/repository.rs:292-330 | the same for a resolution of all heads: a merge of the given parents in order, with the given content and the type of the first head |
| LocalWork.StatusStep | rustend-client/src/idb/revisions.rs:81-116 | no event changes a recorded revision, and its status moves only by an applied answer naming it, to synced or error as the answer says, or by an applied update showing it, to synced |
| LocalWork.PendingUntilSettled | rustend-client/src/idb/revisions.rs:65-79 | a pending revision is in every batch its client may push, at every later point of the run, until an answer naming it or an update showing it is applied |
| LocalWork.OpeningTakesEffect | rustend-client/src/repository.rs:99-108 | a new client starts with empty stores; reopening forgets the cursor and nothing else |
| LocalWork.LossTakesEffect | rustend-client/src/sync.rs:32-48 | at any point of a run a push or pull can be lost, and a transaction id skipped, with no other effect |
| Sync.PushRound | rustend-client/src/sync.rs:19-59 | from every reachable state, an undisturbed push of what is pending commits as one push of that batch does and marks the records by its answer |
| Sync.PushSettles | rustend-client/src/sync.rs:19-59 | from every reachable state a client can push so that nothing of its own is pending |
| Sync.PullCatchesUp | rustend-client/src/sync.rs:61-126 | from every reachable state a client can pull so that it covers everything stored with the cursor at the watermark; objects nobody else changed since its cursor keep their heads, and if nobody else pushed only the cursor moves |
| Sync.EverybodyCatchesUp | rustend-client/src/sync.rs:9-17 | from every reachable state, if all clients push and then pull, none has anything pending and each covers every stored revision |
| Guarantees.PendingAcceptance | rustend-client/src/idb/revisions.rs:65-79 | a pending batch is accepted in full if and only if each revision is the pusher's, new, without repeated parents, and each parent is stored in its object or sent along with a smaller id |
| Guarantees.PendingOrderCanReject | rustend-client/src/idb/revisions.rs:70-73 | an object and its first edit, both pending, that are not both accepted |
| Guarantees.OrphanIsRejected | rustend-server/src/db/push.rs:45-74 | an edit whose parent was never stored is answered UnknownParent although its id comes after its parent's |
| Guarantees.RetriedPushIsMarkedError | rustend-client/src/sync.rs:53-56 | whatever a pending batch holds, after an uninterrupted push and its answer a sent revision is marked an error although stored if and only if it was stored before; of the others exactly the stored ones are synced |
| Rejection.RejectionIsFinal | rustend-client/src/idb/revisions.rs:65-116 | once a revision is an error at its creator, not stored and in no call, it stays an error and neither it nor any descendant is stored in any continuation of the run |
| Rejection.RejectionStrands | rustend-client/src/sync.rs:53-58 | applying the answer that rejects a revision which is not stored and in no other call leads to that state |
| Rejection.StepStays | rustend-client/src/sync.rs:9-126 | no step of any party revives such a revision |
| NetworkPulls.AfterInv | rustend-client/src/sync.rs:9-126 | the invariant of the whole system holds after every sequence of events |
| NetworkPulls.HeadsReadOwes | rustend-server/src/db/pull.rs:23-62 | after the heads query, everything up to the watermark is kept by the client or below a head just read |
| NetworkPulls.ReadParentsOk | rustend-server/src/db/pull.rs:64-127 | the answer assembled from late row and parent reads still covers everything up to the watermark |
| NetworkPulls.ComingStep | rustend-client/src/sync.rs:88-118 | applying one object update turns what that update owed into what the client keeps, whatever happened in between |
| NetworkInv.CreateInv | rustend-client/src/repository.rs:133-162 | a local edit that supersedes all heads of its object keeps the system invariant, pulls in progress included |
| NetworkInv.ServerMoves | rustend-server/src/db/push.rs:8-109 | no step of the server disturbs a client or a pull in progress |
| NetworkInv.PullOkMono | rustend-server/src/handlers/pull.rs:18-32 | every phase of a pull survives any growth of server, graph and local heads |
| ServerRuns.AfterInv | rustend-server/src/db/push.rs:8-109 | the server invariant holds after every interleaving of pushes with arbitrary batches |
| ServerRuns.HeadsAreFrontier | rustend-server/src/db/object_heads.rs:4-29 | in every reachable server state the head index is exactly the set of revisions that nobody names as parent |
| ServerRuns.HeadsCoverAndAreMinimal | rustend-server/src/db/object_heads.rs:10-27 | in every reachable server state each revision is below a head of its object, every object has a head, and no head is a proper ancestor of another |
| ServerRuns.GraphIsWellFounded | rustend-server/src/db/push.rs:27-80 | in every reachable server state each parent was stored strictly earlier and belongs to the same object |
| ServerRuns.RunsAreConfluent | rustend-server/src/db/push.rs:95-106 | two runs that stored the same revisions, in any orders, batches and transactions, have the same heads |
| ServerRuns.TransactionsPartition | rustend-server/src/db/transactions.rs:5-31 | each stored revision is listed by exactly one transaction, whose client created it; ids strictly increase from 1 |
| ServerRuns.FinishOk | rustend-server/src/db/push.rs:95-108 | a commit only extends history and answers truthfully |
| ServerRuns.RunGrows | rustend-server/src/db/push.rs:95-108 | any later point of a run extends the history of any earlier one: revisions, insertion order and transactions stay, new transactions get larger ids |
| ServerRuns.NewRevisions | rustend-server/src/db/push.rs:83-100 | a revision that appears on the server comes unchanged from the batch that was committed |
| HeadIndex.IndexIsFrontier | rustend-server/src/db/object_heads.rs:10-27 | the index built by one update per inserted revision equals the frontier of the stored graph |
| HeadIndex.FrontierStep | rustend-server/src/db/object_heads.rs:10-27 | one head update is one step of the frontier |
| HeadIndex.HeadsCover | README.md:39 | every inserted revision is an ancestor-or-equal of a head of its object |
| HeadIndex.FrontierIsAntichain | README.md:39 | no frontier revision is a proper ancestor of another |
| HeadIndex.Confluence | rustend-server/src/db/object_heads.rs:4-29 | any two parent-before-child insertion orders of the same revisions give the same index |
| HeadIndex.ParentsComeEarlier | rustend-server/src/db/push.rs:45-74 | in a well-formed insertion order parents come strictly earlier, in the same object |
| Push.QueryOk | rustend-server/src/db/push.rs:18-81 | what validation has established about parents survives each of its queries |
| Push.RunOkMono | rustend-server/src/db/push.rs:18-81 | and survives commits of other pushes in between |
| Push.CommitExact | rustend-server/src/db/push.rs:83-108 | a commit that succeeds stores exactly the accepted revisions in batch order under one new transaction listing them; with nothing accepted it changes nothing and answers 0 |
| Push.SelectionIsExact | rustend-server/src/db/push.rs:83-85 | re-selecting by id gives exactly the accepted revisions unless some id repeats among the selected |
| Push.RepeatedIdRollsBack | rustend-server/migrations/001_initial.sql:7 | an id that occurs twice in a batch and is accepted makes the commit fail |
| Push.InsertAllOk | rustend-server/migrations/001_initial.sql:24-28 | inserts that the key constraints let through keep the graph closed, ordered and single-object |
| Push.TransactionOk | rustend-server/src/db/transactions.rs:10-30 | the transaction appended for the revisions just stored keeps the log a partition with increasing ids |
| PushLaws.ValidateIsJudge | rustend-server/src/db/push.rs:18-81 | the query-by-query validator gives the verdicts of a validator that judges one revision at a time |
| PushLaws.ReasonsAreExact | rustend-server/src/db/push.rs:19-74 | for each verdict, acceptance included, the exact condition under which it is given: a foreign author comes before a known id, before repeated parents, before the first parent that is unknown or of another object |
| PushLaws.VerdictsAreExact | rustend-server/src/db/push.rs:18-81 | in any batch, a revision is accepted if and only if it is by the pusher, new, with distinct parents, each known in its object by the last accepted revision with that id or else by the store |
| PushLaws.FullAcceptance | rustend-server/src/db/push.rs:18-81 | any batch is accepted in full if and only if each revision is acceptable after all the ones before it |
| PushLaws.BatchIsConserved | rustend-server/src/db/push.rs:18-93 | accepted and rejected ids together are exactly the ids of the batch, with multiplicity |
| PushLaws.RejectionsAreExact | rustend-server/src/db/push.rs:19-93 | the response names exactly the rejected revisions, each with the reason of its verdict |
| PushLaws.AnswerIsExact | rustend-server/src/db/push.rs:8-93 | the accepted list holds exactly the acceptable revisions, and the rejected list exactly the others with the reason of the first failing test |
| PushLaws.PushSucceeds | rustend-server/src/db/push.rs:87-108 | without repeated ids an uninterrupted push cannot fail |
| PushLaws.CommitFailsExactly | rustend-server/src/db/push.rs:83-106 | under interleaving a commit fails if and only if the selection repeats an id or an accepted id has been stored meanwhile |
| PushLaws.RepushChangesNothing | rustend-server/src/db/push.rs:27-33 | pushing revisions that are all stored changes nothing and answers 0 |
| PushLaws.RepushIsRejected | rustend-server/src/db/push.rs:27-33 | pushing own stored revisions again rejects each as a duplicate |
| PushLaws.BatchingIsTransparent | rustend-server/src/db/push.rs:13-108 | pushing a batch whole or as a prefix and the rest gives the same accepted and rejected lists, revisions, order and heads |
| Codec.RevisionRoundTrip | rustend-server/src/db/revisions.rs:36-45 | a stored revision reads back unchanged, parent order included, if and only if it has at most 32768 parents |
| Codec.GetParentsBatch | rustend-server/src/db/revisions.rs:121-128 | the grouping loop lists for each id its rows in the order they came |
| Codec.BatchAgreesWithSingle | rustend-server/src/db/revisions.rs:93-119 | the grouped answer of the batch query is, for each id, an answer of the single query |
| Codec.BatchRoundTrip | rustend-server/src/db/revisions.rs:106-159 | revisions read in one batch read back unchanged |
| Codec.BatchReadsAs | rustend-server/src/db/revisions.rs:106-159 | whatever their number, parents read back without loss or repetition, and as stored if and only if there are at most 32768 |
| Core.LineageRoundTrip | rustend-server/src/db/revisions.rs:135-144 | rebuilding a lineage from its parent list gives the lineage |
| Core.Lineage.FromParents | rustend-server/src/db/revisions.rs:135-144 | the rebuilt lineage has exactly the given parents in order |
| Filter.ResolvePath | rustend-server/src/db/pull.rs:170-177 | the path loop computes the recursive walk along the keys |
| FilterLaws.DollarIsOptional | rustend-server/src/db/pull.rs:171 | a leading "$." makes no difference |
| FilterLaws.SecondDollarIsAKey | rustend-server/src/db/pull.rs:171 | only one "$." is dropped; a second one names a member |
| FilterLaws.PlainPathIsMember | rustend-server/src/db/pull.rs:170-177 | a path without dots is that member of an object, and nothing on other values |
| FilterLaws.DottedPathDescends | rustend-server/src/db/pull.rs:170-177 | a dotted path resolves the rest in the member named by its first key |
| Filter.SplitThenJoin | rustend-server/src/db/pull.rs:171-173 | splitting a path loses nothing and leaves no dot in a key |
| Filter.OperatorsPartition | rustend-server/src/db/pull.rs:151-168 | the comparison operators partition comparable values and are all false otherwise; Ne is the complement of Eq |
| FilterLaws.NumbersCompareByRank | rustend-server/src/db/pull.rs:156-159 | on numbers each of the four comparisons holds if and only if the ranks compare so |
| FilterLaws.StringsCompareLexicographically | rustend-server/src/db/pull.rs:156-159 | on strings each holds if and only if the strings are so ordered: by a proper prefix or the first difference |
| FilterLaws.NothingElseCompares | rustend-server/src/db/pull.rs:179-194 | a missing value, or values of other or different kinds, meet no comparison |
| FilterLaws.PresenceAndEquality | rustend-server/src/db/pull.rs:152-155 | Exists, IsNull, Eq and Ne by whether a value is there and which; Ne also where none is |
| FilterLaws.StartsWithIsPrefix | rustend-server/src/db/pull.rs:161-164 | StartsWith holds if and only if the value is the prefix followed by something |
| FilterLaws.ArrayContains | rustend-server/src/db/pull.rs:196-198 | an array contains exactly what is at one of its indices |
| FilterLaws.StringContains | rustend-server/src/db/pull.rs:199-200 | a string contains exactly its slices |
| FilterLaws.NothingElseContains | rustend-server/src/db/pull.rs:196-203 | other values, or a missing one, contain nothing |
| FilterLaws.TimeBounds | rustend-server/src/db/pull.rs:130-140 | a time passes if and only if it respects every bound, each in its own direction |
| FilterLaws.HeadPassesExactly | rustend-server/src/db/pull.rs:85-97 | a head passes if and only if its type is listed, its time is within the bounds, and it is deleted or all conditions of some group hold |
| Filter.StringOrder | rustend-server/src/db/pull.rs:190-191 | string comparison is antisymmetric and zero only on equal strings |
| FilterLaws.ComparisonIsLexicographic | rustend-server/src/db/pull.rs:190-191 | the sign of a string comparison is the lexicographic order |
| Filter.StringOrderTransitive | rustend-server/src/db/pull.rs:190-191 | string comparison is transitive |
| Filter.OrGroupWidens | rustend-server/src/db/pull.rs:142-149 | an additional OR group never stops a head that passed |
| Filter.AndConditionNarrows | rustend-server/src/db/pull.rs:142-149 | an additional AND condition never lets a head pass that was stopped |
| Pull.TornPullIsAtomic | rustend-server/src/db/pull.rs:23-127 | a pull torn across any five points of any run answers like one atomic read at the heads query; it mentions an object if and only if a transaction after the cursor, up to the watermark read first, lists a revision of it by another client and one of its heads passes; with more than 32768 parents heads are shown up to the order of parents |
| Pull.OwnPushesAreNotEchoed | rustend-server/src/db/pull.rs:31-48 | a client that alone has pushed since its cursor gets an empty answer |
| Pull.ChangedIsForeign | rustend-server/src/db/pull.rs:24-33 | the objects queried are those with a revision by another client in a transaction of the window |
| Pull.UpdatesAnswer | rustend-server/src/db/pull.rs:70-127 | one update per changed object with a passing head, listing each of its heads once as stored, Replace if and only if there is one |
| Pull.FetchObjectUpdates | rustend-server/src/db/pull.rs:56-127 | the loop that consumes the row table computes what lookups in the untouched table give |
| Pull.TakeHeads | rustend-server/src/db/pull.rs:77-108 | the inner loop takes each head's row once, decodes it and notes whether any passes |
| Pull.GroupHeads | rustend-server/src/db/pull.rs:56-62 | the grouping loop lists each object's head ids in row order |
| Pull.RowsRefine | rustend-server/src/db/pull.rs:64-125 | working on rows gives what working on the encoded revisions gives |
| Pull.ChangedStable | rustend-server/src/db/pull.rs:23-43 | later commits do not change the objects changed up to a watermark |
| Pull.ChangedSplits | rustend-server/src/db/pull.rs:23-43 | the changes of a window are those of its two halves |
| Pull.WatermarkBound | rustend-server/src/db/transactions.rs:33-39 | no transaction id exceeds the watermark, and the watermark never exceeds the id sequence |
| Pull.FilterIsMonotone | rustend-server/src/db/pull.rs:86-112 | under a stronger filter the updates are a subsequence, with identical heads and actions |
| Pull.TombstonesSurvive | rustend-server/src/db/pull.rs:93-97 | an object with a deleted head that meets the other criteria is shown with all its heads under every content filter |
| ClientModel.EditOutcome | rustend-client/src/repository.rs:140-147 | an edit succeeds if and only if the parent is the only head; which error otherwise; NotCached is never reported; the revision has the head's type and the given parent, content, time and author |
| ClientModel.MergeOutcome | rustend-client/src/repository.rs:298-314 | a resolution succeeds if and only if there are two or more parents and all are heads, and with which error otherwise; the merge names exactly the given parents and has the given content, time and author and the type of the first head |
| ClientModel.PutLocalHeads | rustend-client/src/repository.rs:158-160 | after an edit its revision is the object's only head and other objects are untouched |
| ClientModel.PutLocalExactly | rustend-client/src/repository.rs:157-160 | an edit adds one pending record, changes no other record, makes its revision the only head of its object with a record that shows it field by field, and the next push sends it |
| ClientModel.ReplaceExactly | rustend-client/src/idb/object_heads.rs:18-40 | replacing heads gives the object exactly the given heads, each shown field by field, and touches no other object |
| ClientModel.AddExactly | rustend-client/src/idb/object_heads.rs:42-55 | adding heads puts exactly the given ones, each shown field by field under its own object |
| ClientModel.PushAnswerFacts | rustend-client/src/sync.rs:50-56 | accepted records become synced, rejected ones carry the reason of their last rejection, others and all revisions stay |
| ClientModel.ReconcileOutcome | rustend-client/src/sync.rs:95-117 | heads are replaced exactly if one incoming head is, or directly succeeds, every local one; otherwise all stay and the incoming join |
| ClientModel.ReconcileCovers | rustend-client/src/sync.rs:98-116 | local and incoming heads stay covered, and a dropped head is a direct parent of an incoming one |
| ClientModel.ReconcileCommutes | rustend-client/src/idb/object_heads.rs:18-55 | reconciling two different objects commutes |
| ClientModel.InterruptedPullReplays | rustend-client/src/sync.rs:88-123 | applying any prefix of an answer and then the whole answer equals applying it once |
| Convergence.ResolutionConverges | rustend-client/src/repository.rs:292-330 | a merge of all local heads pushed when these are stored is accepted whatever other pushes commit during its validation; if the object has no head it does not name, the commit fails only if an accepted id was stored meanwhile, and otherwise the merge is the only head on both sides |
| Convergence.UninterruptedResolution | rustend-client/src/repository.rs:292-330 | from any consistent server state, resolving all heads, when they include the server's and are stored, is accepted and leaves the merge as the only head on both sides |
| Convergence.MergeSurvives | rustend-server/src/db/push.rs:18-81 | no validation query of any interleaving rejects the merge |
| Convergence.InterleavedMerge | rustend-server/src/db/push.rs:8-109 | whatever else commits meanwhile, pushing any revision that names all heads of its object and whose parents were stored when the push began ends with it as the only head, or fails because an accepted id was stored meanwhile |
| Convergence.PartialResolutionLosesHeads | rustend-client/src/repository.rs:303-328 | after a resolution a former head is covered if and only if it is an ancestor-or-equal of a named parent |
| Convergence.UnrelatedHeadsMustBeNamed | rustend-client/src/repository.rs:303-328 | with unrelated heads, a resolution keeps them all covered if and only if it names them all |
| Convergence.ThirdHeadIsLost | rustend-client/src/repository.rs:303-328 | three conflicting heads of which a resolution names two and loses the third |
| Convergence.EditDuringReconcile | rustend-client/src/sync.rs:97-111 | an unsent edit of the same object between reading and writing the heads survives if and only if the update was not going to replace them |
| Convergence.LocalEditIsLost | rustend-client/src/sync.rs:97-111 | an edit that is lost this way |
| Convergence.UpdateDuringEdit | rustend-client/src/repository.rs:140-160 | a head brought by an update between an edit's read and write of the heads stays covered if and only if it is an ancestor-or-equal of a parent of the edit |
| Convergence.IncomingHeadIsLost | rustend-client/src/repository.rs:140-160 | an incoming head that is lost this way |
| Scenario.ForeignUpdateArrives | rustend-server/tests/integration.rs:51-93 | a concrete run in which a client pulls a revision another client created and pushed, ending with it synced, as the only head, and the cursor advanced |
| Scenario.RetryAfterLostAnswer | rustend-client/src/sync.rs:23-58 | a concrete run in which the answer to a committed push is lost and the repeated push leaves the stored revision marked as a duplicate error |
| ServerDb.Database.PushRevisions | rustend-server/src/db/push.rs:8-109 | the method leaves the state and gives the answer of validate-then-commit, or rolls everything back |
| ServerDb.Database.ValidateBatch | rustend-server/src/db/push.rs:13-81 | the nested loops produce the accepted list, id set and rejections of the validator |
| ServerDb.Database.CheckParents | rustend-server/src/db/push.rs:45-74 | the parent loop reaches the validator's verdict |
| ServerDb.Database.CommitBatch | rustend-server/src/db/push.rs:83-106 | all inserts, heads and the transaction, or the tables as before |
| ServerDb.Database.InsertSelected | rustend-server/src/db/push.rs:96-100 | the insert loop succeeds exactly if the constraints allow all inserts |
| ServerDb.Database.InsertRevision | rustend-server/src/db/revisions.rs:13-47 | rows and parent rows encode the extended graph, or a constraint is violated |
| ServerDb.Database.InsertParents | rustend-server/src/db/revisions.rs:36-45 | one positioned row per parent, if and only if all exist and none repeats |
| ServerDb.Database.UpdateObjectHeads | rustend-server/src/db/object_heads.rs:4-29 | parents' head rows of the object go, the new row comes |
| ServerDb.Database.InsertTransaction | rustend-server/src/db/transactions.rs:5-31 | a new id and one membership row per revision, if and only if all exist and none repeats |
| ServerDb.Database.LatestTransactionId | rustend-server/src/db/transactions.rs:33-39 | the id of some transaction that none exceeds, or 0 |
| ServerDb.Database.QueryChanged | rustend-server/src/db/pull.rs:23-43 | lists, each once, exactly the objects with a revision by another client in a transaction of the window |
| ServerDb.Database.PullChanges | rustend-server/src/handlers/pull.rs:5-33 | out of range exactly beyond the 64-bit bound; otherwise the watermark and an answer that mentions exactly the objects others changed up to it that have a passing head, and nothing if only the puller pushed; each head is shown as it reads back, hence as stored while parents are within the bound |
| ServerDb.SizesDiffer | rustend-server/src/db/push.rs:35-37 | comparing the sizes of list and set finds repeated parents |
| ClientDb.Replica.GetHeads | rustend-client/src/idb/object_heads.rs:68-81 | the range scan lists the object's heads in key order |
| ClientDb.Replica.Get | rustend-client/src/repository.rs:193-208 | one version per head, in key order, with the content of the head record |
| ClientDb.Replica.ReplaceObjectHeads | rustend-client/src/idb/object_heads.rs:18-40 | deleting the existing keys and putting the new ones gives exactly the given heads for the object, with type, content, lineage and data of the revisions, and leaves other objects alone |
| ClientDb.Replica.ClearHeads | rustend-client/src/idb/object_heads.rs:25-33 | the delete loop removes exactly the object's heads |
| ClientDb.Replica.AddObjectHeads | rustend-client/src/idb/object_heads.rs:42-55 | puts the given heads with type, content, lineage and data of the revisions, and removes none |
| ClientDb.Replica.MarkRevision | rustend-client/src/idb/revisions.rs:81-116 | changes the status of an existing record and nothing else |
| ClientDb.Replica.GetPendingRevisions | rustend-client/src/idb/revisions.rs:65-79 | all pending revisions, in id order |
| ClientDb.Replica.ApplyPushResponse | rustend-client/src/sync.rs:50-58 | the two marking loops apply the answer |
| ClientDb.Replica.CheckParentsAreHeads | rustend-client/src/repository.rs:20-32 | true if and only if every parent is a head |
| ClientDb.Replica.Save | rustend-client/src/repository.rs:110-131 | a new pending root revision with the given type and data that is the object's only head |
| ClientDb.Replica.EditObject | rustend-client/src/repository.rs:133-191 | update and delete succeed if and only if the parent is the only head; then the given content is stored as a pending revision of the head's type, which becomes the only head; otherwise the modelled error and an unchanged store |
| ClientDb.Replica.ResolveConflict | rustend-client/src/repository.rs:292-330 | succeeds if and only if there are two or more parents and all are heads; then the given content is stored as a pending merge of the type of the first head, which becomes the only head; otherwise the modelled error and an unchanged store |
| ClientDb.Replica.HasDiverged | rustend-client/src/sync.rs:97-105 | the divergence test over the scanned heads |
| ClientDb.Replica.ApplyObjectUpdate | rustend-client/src/sync.rs:88-118 | records, then heads, of one object of an answer; conflicted exactly if not replaced cleanly |
| ClientDb.Replica.PullUpdates | rustend-client/src/sync.rs:85-125 | the whole answer applied in order, the number of delivered heads and of updates that met a divergence or conflict, and the cursor written last |

## Left out

- Authentication, client registration, whoami and opening a repository: plumbing around the protocol; each client id is fixed.
- HTTP, JSON and IndexedDB serialisation, sqlx and PostgreSQL internals: replaced by values, explicit key constraints and arguments for what is left open.
- File blobs, application indexes and `query_by_index`: they add no invariant to the protocol.
- Floating-point comparison in filters: a JSON number carries the rank of its approximation instead.
- Time stamps below database precision: `createdAt` is an integer.
- Liveness: nothing says that a push or pull is ever started or answered; `Sync` shows that undisturbed ones are possible from every state.
- Equality of client heads with server heads after a pull, cursors supplied by the caller, and cursors under changing filters: the code does not promise them.
- A crash between the two local writes of one edit.
- Overflow of the 32-bit counters in the sync result and of the 64-bit transaction id sequence.
