# Ranke-Graph: a verified model

Ranke-Graph is a content-addressed, append-only graph of claims. Each claim references older
ones, a branch table names the head of every branch, and the chain of tables is the archive.
One writer, the Sequencer, advances it by merging contributions. This project models that core
in Dafny 4.11 and proves what its parts promise together. `dafny verify dfyconfig.toml` checks
all of it.

## How it is laid out

- `Options`, `Graphs`, `Claims`: absent values; walks and closures; claims, stores, content
  addresses. Ids are naturals whose order is the order of the ids as byte strings. `Delta` is
  the graph of the edges as stored.
- `Addressing`: a content address, built from pairs of numbers, that meets what the other
  modules assume of one.
- `Diffs`, `Nodes`, `Membership`: diff claims and the overlay of their edges; that of their
  fields and content; the two ways of asking whether a claim lies in a closure, which agree.
- `Bookmarks`: the list of archive heads, searched by doubling and bisecting, with an exact
  count of probes; the writer's cache and its append.
- `Verifier`, `Minting`: the rules judged from a claim and its direct references, the pruned
  walk, and why claims the Sequencer mints keep those rules.
- `Folds`, `Sequencers`, `Serial`: what folding a branch and restating the table mean; the
  concurrent Sequencer's commit, founding and reopening as a class over its fields; the serial
  Sequencer, and the proof that a group commit and serial merges in any order agree.
- `Merges`, `MergeRuns`: every interleaving of callers as a state machine. Contributions queue,
  one caller holds the thread, each operation may fail, an append may fail although its record
  landed, and the process may stop and reopen anywhere. `Merges` has the machine and its
  invariant, `MergeRuns` what holds of whole runs: nobody is stranded, every call returns,
  receipts last, no update is lost, a restart finds the state before or after, and all that is
  committed is sound.
- `Progress`, `Foundings`, `Scenarios`, `Spines`: that every call is served by steps that
  succeed; where runs start, and that there are such; runs that publish, and that write over an
  unread record; and that the head of every run tops the kind of spine the tag index assumes.
- `Tagger`: the branch-tag index, its resumed and repeated runs, and the reads that trust it.
- `Layers`, `Walks`, `Traversal`, `Hops`: distances and least shortest walks; one path step as
  the source's level loop; the reverse index, several steps, and reads without a path; for which
  hop bounds a step answers all it promises.
- `Deletion`, `Copying`: planned deletion and what a contribution does so that it strands
  nothing; copies between stores.
- `Fillers`, `Stacks`, `Partitions`, `Streams`, `Budgets`, `QueryCodec`: the lossy background
  queue, layered and partitioned stores, streamed content checks, content caps, and the query's
  printer and parser.

Code that works by changing state is modelled as classes and loops. A method's contract gives
its new state, and the lemmas beside it say what that state means. An operation that may fail
does so by an arbitrary choice, so a contract speaks for each way a call can end.

## Where the code and what it promises part

Each of these is proved on the model, most with the exact condition.

- A claim is expanded once per step, at its distance. A step answers every claim some walk of an
  allowed length ends at exactly for a minimum of 0 or 1 (`Hops.BoundsKept`). Asked from a single
  claim it does so for 2 as well, a `connections` step only if its maximum is 2 too
  (`Hops.BoundsKeptFromOne`).
- An append that fails although its record landed is overwritten by the next one, unless the
  writer had not written since it opened. Then the next append goes over a record its table is
  no diff of (`MergeRuns.AppendLinks`).
- A founding that fails between its first table and its bookmark leaves a branch in memory that
  no table records. Archive and memory agree again exactly once some later table has restated
  that branch (`Sequencers.FailedFoundDiverges`).
- The serial merge assigns branch heads before the table has landed. Tried again after a failure,
  a merge gives a receipt that reaches the contribution exactly if memory was not left holding it
  or the archive's head reached it as well (`Serial.Dev.MergeTwice`), and there is an archive
  where neither is so (`Serial.MergeAgainMisses`).
- A founding or a serial merge whose closing `Tag` fails returns an error over an archive that
  has advanced (`Sequencers.Sequencer.Found`, `Serial.Dev.Merge`).
- The comment on `GetFromClosure` calls a gap on the way a real error. A missing claim is
  `ErrNotFound`, so `InClosure` reports absence (`Membership.InClosure`).
- The comment on the tag keys calls the revision mark the one written last. The code hands it to
  the store with the revision's tags in one call. The index needs that call to land whole: a walk
  may prune at tagged claims exactly if they are closed under reference
  (`Tagger.PruningIsSafeExactly`).
- A fold leaves the prior head out when a contributed head reaches it, over dated claims or not.
  A branch keeps a claim through every planned deletion exactly when its head has a path of
  undated claims to it (`Deletion.NeverCutExactly`, `Deletion.FoldKeepsExactly`). So a dated
  contribution head that becomes the branch's own keeps nothing for good
  (`Deletion.DatedHeadCutsBranch`), and an undated one may lose the prior head as well
  (`Deletion.DatedPathCutsBranch`).
- Tables and folded heads copy no date from what they reference, which the verifier's own rule
  demands (`Deletion.TableCopiesExactly`, `Deletion.FoldCopiesExactly`), while consolidating a
  contribution does (`Deletion.ConsolidationCopies`).
- A planned deletion is called idempotent. It passes over a claim it cannot read, as one gone
  already, and still succeeds. A second one at the same time then removes exactly what is due past
  such a claim (`Deletion.SecondSweepRemoves`, `Deletion.UnreadIsLeft`), and nothing where the
  first could read all it came to (`Deletion.SecondSweepIdle`).
- A claim due later is removed by a later sweep exactly when the earlier one left a path of claims
  to it that were not due (`Deletion.LaterSweepRemoves`), and otherwise stays
  (`Deletion.LaterSweepMisses`).
- A planned deletion that returns an error may have removed claims already
  (`Deletion.Vault.DeletePlanned`).
- An interrupted copy leaves claims without their references, and copying again passes them by
  as fully copied (`Copying.InterruptedCopyStays`).
- With an expected size of 0 a verifying reader accepts any source (`Streams.ReadNothing`).
- A query asking for the error or warn report encodes, and the result does not decode
  (`QueryCodec.QueryTrip`). A decoded query may name one id under two spellings, which printing
  merges (`QueryCodec.DecodedTrip`).

## Model

| member | source | states |
|---|---|---|
| Graphs.WorklistDone | universe_default.go:117-146 | a queue loop that has drained has seen exactly the closure of its roots |
| Graphs.ExtendClosure | graph.go:98-114 | adding claims to a store changes no complete closure |
| Claims.PutGrows | universe.go:107-115 | storing a claim under its content address overwrites nothing |
| Claims.AddressedAcyclic | universe.go:107-115 | content addressing leaves no cycle of references |
| Addressing.DigestAddresses | id.go:14-17 | a content address exists: it tells claims apart, and none is addressed before all it references |
| Diffs.ComputeDiffEdges | claim.go:136-164 | the merged edges of a diff claim are its own unnamed edges and the overlay of its named ones, in canonical order |
| Diffs.MaterializeOne | universe_default.go:52-78 | materialising loads the predecessor materialised and merges over it, and fails exactly where a predecessor is missing |
| Diffs.ShownIsReached | claim.go:111-164 | every edge a materialised claim shows leads to a claim its stored edges reach |
| Diffs.DeltaMaterialAgree | query_default.go:67-96 | following materialised edges and following stored edges reach the same claims, for every complete closure whose diff claims name no edge twice |
| Diffs.DuplicateNamesPart | claim_builder.go:466-487 | without distinct names the two readings part: a concrete store, each claim naming its contributor, where the overlay loses a claim the stored edges reach |
| Nodes.ComputeDiffFields | node.go:108-120 | the merged fields are those the chain of predecessors presents |
| Nodes.FieldExactly | node.go:84-120 | a field is presented as the nearest node states it that states it before any omits it |
| Nodes.ContentExactly | node.go:122-129 | content is that of the nearest node that has any |
| Nodes.FlattenedPresents | node.go:91-106 | a flattened node has no predecessor and presents the same fields and content |
| Nodes.FlattenedBelow | node.go:91-106 | flattening a predecessor anywhere in the chain changes nothing presented above it |
| Membership.InClosure | query_default.go:555-611 | a yes is always true; the answer is exact where the walk meets no gap, which it reports as absence |
| Membership.Confine | query_default.go:65-96 | the swept scope is the closure over materialised reads, and a gap is an error |
| Membership.ConfinementIsClosure | query_default.go:67-96 | the sweeping scope and the delta walk decide the same membership, and meet gaps in the same closures |
| Bookmarks.List.Ascend | bookmarks.go:222-253 | over any store the answer is present and the next index is not; over a gapless list it is the top, at 2*bitlength(distance) probes, or 1 when already there |
| Bookmarks.List.Descend | bookmarks.go:255-285 | the same downward: the bottom of a gapless list, within 2*bitlength+1 probes |
| Bookmarks.BitLengthUnique | bookmarks.go:226-253 | the number of gallops is the number of binary digits of the distance |
| Bookmarks.List.ProbeGap | bookmarks.go:287-300 | a clear probe leaves no entry within four slots past the hole above the top |
| Bookmarks.List.Bounds | bookmarks.go:188-220 | a writer answers from its cache; a reader finds the exact range of a gapless list, and an unseeded empty one is empty |
| Bookmarks.List.Append | bookmarks.go:89-113 | the record goes one above the settled top, the cached range stays the true one, and a failure leaves the cache where it was whatever landed |
| Bookmarks.List.Latest | bookmarks.go:115-126 | the head bookmarked last, from the cache or from a search |
| Bookmarks.List.VerifyGapless | bookmarks.go:164-186 | a verified list holds an entry at every index of its range |
| Verifier.VerifyHeight | verify_reference.go:24-68 | accepts exactly the committed heights one above the highest reference, a lower bound where a reference is missing, and 0 for a claim with none |
| Verifier.VerifyDates | verify_reference.go:92-119 | accepts exactly the claims dated no earlier than each reference present |
| Verifier.RunVerification | verify.go:95-233 | every failure names a claim the walk was to judge that breaks a rule or is missing, and a run without caps or failures has judged all it reached short of trusted claims |
| Verifier.VerdictIsExact | verify.go:99-233 | over a complete closure the run fails exactly when some claim it judges breaks a rule |
| Verifier.PrunedWalkSound | verify.go:43-45 | a walk that prunes at trusted claims speaks for the whole closure, given that everything below the trusted ones is sound |
| Verifier.HeightIsLongestWalk | verify_reference.go:24-68 | in a sound closure a height is the length of the longest reference path below its claim |
| Verifier.DatesNeverDecrease | verify_reference.go:92-119 | along every reference path no claim is dated later than where the path starts |
| Minting.AutoHeightIsAbove | claim_builder.go:120-180 | the height a mint resolves is one above the highest reference |
| Minting.MintSettled | adapter/sequencer/concurrent/concurrent.go:428-442 | a claim minted over sound roots at a tick of a monotone clock keeps the height and date rules, and everything below it does |
| Minting.VerifiedSettled | adapter/sequencer/concurrent/contribution.go:149-160 | a contribution root verified by a walk pruned at committed claims has a sound closure |
| Minting.SettledGrows | adapter/sequencer/concurrent/concurrent.go:359-368 | a sound closure stays sound as the store grows |
| Minting.VerifiedStays | adapter/sequencer/concurrent/contribution.go:149-160 | a verified root stays verified while the store grows and more is committed |
| Folds.FoldLosesNothing | adapter/sequencer/concurrent/concurrent.go:370-443 | a folded head reaches exactly what the prior head and the contributed heads reach, and beyond that only itself and the closure of the contributor when it was minted |
| Folds.TableRestates | adapter/sequencer/concurrent/concurrent.go:445-476 | a table over the previous one shows the previous branches with the changed ones restated |
| Folds.TableDiff | adapter/sequencer/concurrent/concurrent.go:449-453 | a table is a diff over the previous head, and over nothing else |
| Folds.TableReaches | archive.go:49-62 | an archive head reaches every branch it carries, restated by it or by a table below |
| Folds.MintedIsTabular | archive.go:49-62 | every minted table names each branch once, so reading its branch edges gives its branches |
| Folds.MaterializedGrows | universe_default.go:52-78 | a later store materialises a claim as an earlier one did |
| Sequencers.Sequencer.FoldRoots | adapter/sequencer/concurrent/concurrent.go:374-411 | the roots of a fold cover the contributed heads and the prior one; none are left exactly when the branch reaches every head already |
| Sequencers.Sequencer.FoldBranch | adapter/sequencer/concurrent/concurrent.go:370-443 | the branch keeps its head, takes a single one, or has one minted over the roots; a branch that holds everything already never moves |
| Sequencers.Sequencer.MintBranchTable | adapter/sequencer/concurrent/concurrent.go:445-476 | the table holds the changed branches, the contributor, and the diff edge over the current head |
| Sequencers.Sequencer.Gather | adapter/sequencer/concurrent/concurrent.go:305-310 | per branch, the heads of the whole batch in queue order |
| Sequencers.Sequencer.Commit | adapter/sequencer/concurrent/concurrent.go:301-357 | a commit that succeeds makes each touched branch the union of what it held and what came in, moves no other, bookmarks one table over the old head and publishes it; one that fails publishes nothing; held contributions do not move the head |
| Sequencers.Sequencer.MarkBatch | adapter/sequencer/concurrent/concurrent.go:359-368 | a batch marks its ids and heads as committed |
| Sequencers.Sequencer.Adopt | adapter/sequencer/concurrent/concurrent.go:117-142 | memory takes the head of the top bookmark and the branches its table records |
| Sequencers.LoadBranches | archive.go:51-62 | each branch edge of the table, by name |
| Sequencers.Sequencer.Found | adapter/sequencer/concurrent/concurrent.go:148-201 | a founding that succeeds bookmarks the table binding the branch to the first contributor; one whose Tag fails has done so too; one that fails before has left memory as it was, or the branch over the empty table |
| Sequencers.FailedFoundDiverges | adapter/sequencer/concurrent/concurrent.go:182-192 | after a failure before the bookmark, and any number of tables minted over that head, the archive recovers what memory holds exactly when between them they have restated every branch being founded |
| Serial.GroupIsSerial | adapter/sequencer/concurrent/concurrent.go:301-357 | a group commit and one-at-a-time merges in any order both leave every branch with all it held and all that was brought, and beyond that nothing but heads minted on the way and the contributor closure |
| Serial.Dev.Merge | adapter/sequencer/dev/dev.go:230-318 | the serial merge loses no update, also when only its Tag fails; its branch heads move in memory before the table that records them has landed |
| Serial.Dev.MergeTwice | adapter/sequencer/dev/dev.go:292-299 | a merge tried again after a failure: its receipt reaches the contribution exactly if memory was not left holding it, or the archive's head reached it before the second call |
| Serial.MergeAgainMisses | adapter/sequencer/dev/dev.go:292-299 | neither need be so: a concrete archive and contribution where a merge that failed to land its table leaves memory holding what the head does not reach |
| Serial.HeldIsReached | adapter/sequencer/dev/dev.go:244-296 | heads in memory that match the archive make a receipt for held claims true |
| Merges.StepKeeps | adapter/sequencer/concurrent/concurrent.go:247-357 | every step of every caller, every failure and every restart keeps the invariant of the merge protocol |
| Merges.EnqueueKeeps | adapter/sequencer/concurrent/concurrent.go:255-264 | queueing a verified contribution keeps it |
| Merges.JoinKeeps | adapter/sequencer/concurrent/concurrent.go:422-442 | minting a folded head keeps it, the new head being sound |
| Merges.MintTableKeeps | adapter/sequencer/concurrent/concurrent.go:338-341 | minting the table keeps it |
| Merges.AppendKeeps | adapter/sequencer/concurrent/concurrent.go:342-347 | an append keeps it, whether it succeeds, fails, or fails although its record landed |
| Merges.PublishKeeps | adapter/sequencer/concurrent/concurrent.go:349-355 | publishing keeps it |
| Merges.SettleKeeps | adapter/sequencer/concurrent/concurrent.go:291-298 | handing a queued caller its outcome keeps it |
| Merges.ReopenKeeps | adapter/sequencer/concurrent/concurrent.go:89-142 | stopping at any point and reopening is possible and keeps it |
| MergeRuns.RunKeeps | adapter/sequencer/concurrent/concurrent.go:247-357 | so the invariant holds in every state of every run |
| MergeRuns.NobodyIsStranded | adapter/sequencer/concurrent/concurrent.go:244-299 | every unsettled call is owed an outcome by exactly one entry of the queue or the batch, and a caller that left drain finds its own settled |
| MergeRuns.OutcomesStand | adapter/sequencer/concurrent/concurrent.go:291-298 | an outcome once given is never changed |
| MergeRuns.OfferableStays | adapter/sequencer/concurrent/contribution.go:149-193 | what a contribution was sealed over stays good until it is queued, whatever is staged or committed meanwhile |
| Progress.SomebodyMoves | adapter/sequencer/concurrent/concurrent.go:275-299 | while a call has not returned, a step is open that does not fail, unless a branch without a head is offered none |
| Progress.FoldMoves | adapter/sequencer/concurrent/concurrent.go:370-443 | every branch that has a head or is offered one can be kept, taken over, or folded under a head that keeps the rules |
| Progress.TableOver | adapter/sequencer/concurrent/concurrent.go:445-476 | once the branches are folded the table restating them can be minted |
| Progress.EveryCallIsServed | adapter/sequencer/concurrent/concurrent.go:244-299 | from every state a run comes to, steps that succeed lead to one where every call has returned and every waiting contribution is committed and has its receipt |
| MergeRuns.MovesRunOut | adapter/sequencer/concurrent/concurrent.go:275-299 | every step callers take, a failing one too, decreases a measure, so no call goes on forever |
| MergeRuns.ReceiptsLast | adapter/sequencer/concurrent/concurrent.go:79-84 | the head a call of Merge was told of, and every archive head from then on, reach all the claims that call brought, across failures and restarts |
| MergeRuns.PublishMerges | adapter/sequencer/concurrent/concurrent.go:349-355 | each publish makes the touched branches the union of what they held and what the batch brought |
| MergeRuns.ReopenIsBeforeOrAfter | adapter/sequencer/concurrent/concurrent.go:117-142 | reopening after a crash at any point finds the state before an advance or the state after it, every branch whole |
| MergeRuns.AcknowledgedSurvives | adapter/sequencer/concurrent/concurrent.go:342-355 | an advance whose bookmark was acknowledged is the one a restart recovers |
| MergeRuns.ListIsContiguous | adapter/sequencer/concurrent/concurrent.go:342-347 | in every reachable state the bookmark list has no gap, its entry for the head in memory materialises to the branch heads in memory, and consecutive tables are linked by diffs unless an append went over an unread record |
| MergeRuns.AppendLinks | bookmarks.go:92-113 | an append keeps the bookmarked tables linked exactly when its writer has written before or no record of its own stands above the head it opened at |
| MergeRuns.CommittedIsSound | verify.go:99-233 | in every reachable state each claim below the head or below a committed claim has its longest-path height and no later-dated claim below it |
| Foundings.FoundingStarts | adapter/sequencer/concurrent/concurrent.go:148-201 | a founding that succeeded leaves an open archive of one branch, everything committed sound, and so a state runs of the protocol start from |
| Foundings.FoundingIsPossible | adapter/sequencer/concurrent/concurrent.go:148-201 | such a founding exists, whatever the branch, so what holds of every run is said of some |
| Scenarios.CommitIsPossible | adapter/sequencer/concurrent/concurrent.go:301-357 | some run publishes a new head and hands out a receipt |
| Scenarios.LapseIsPossible | bookmarks.go:92-113 | some run reopens, has an append fail whose record landed, and then succeeds in an append that is no diff of that record |
| Spines.RunsKeepSpine | adapter/sequencer/concurrent/concurrent.go:445-476 | in every state of a run the head tops a spine of diffs with rising heights and branches that only grow |
| Spines.FoundedSpine | adapter/sequencer/concurrent/concurrent.go:178-192 | a founding leaves such a spine |
| Tagger.TagBranchClosure | universe_default_tagger.go:24-61 | stamps exactly the untagged claims a walk reaches without passing a tagged one, and fails exactly where that walk meets a gap |
| Tagger.TagRevision | universe_default_tagger.go:125-136 | one revision stamps its table's height for each branch it restates |
| Tagger.Index.Descend | universe_default_tagger.go:90-115 | the descent lists the tables from the head to the root, or to the first one a run has marked |
| Tagger.Index.TagArchive | universe_default_tagger.go:77-148 | run, resumed after a failure or told to retag, the index ends exact for every revision up to the head, and where it was exact already no tag changes |
| Tagger.RevisionExact | universe_default_tagger.go:117-146 | flushing one revision extends the exact tags by that revision |
| Tagger.PruningMissesNothing | universe_default_tagger.go:39-41 | pruning at tagged claims misses nothing when those tags are closed under reference |
| Tagger.LoneTagStrands | universe_default_tagger.go:137-145 | a tag that landed without those below it is never mended by a later run |
| Tagger.PruningIsSafeExactly | universe_default_tagger.go:39-41 | pruning at tagged claims misses nothing, from whatever head, exactly if they are closed under reference |
| Tagger.TagIsPointInTime | query_default.go:45-63 | a claim's tag is at most a table's height exactly when the claim is on that branch at that snapshot |
| Tagger.TaggedHeadDecides | query_default.go:98-113 | once a scope's head carries its branch's tag the tags decide the whole scope, even past where the index stops |
| Tagger.Confine | query_default.go:65-113 | by tag or by sweep, the confinement admits exactly the closure of the scope's head |
| Tagger.CommitsGrow | adapter/sequencer/concurrent/concurrent.go:370-443 | a commit keeps every claim of every branch, as the tags assume |
| Layers.NextLevel | query_walk.go:207-287 | the next level holds what the present one steps to and no level so far holds |
| Layers.LeastComposes | query_walk.go:222-243 | extending the least routes of a level and keeping the first gives the least routes of the next, in cyclic graphs too |
| Walks.MatchTypeList | query_walk.go:309-333 | no excluding pattern matches, and a positive one does unless there is none |
| Walks.CompareRoutes | query_walk.go:291-307 | shorter first, then by (created_at, id) place by place |
| Walks.Consider | query_walk.go:222-243 | the arrival is recorded, and the first of the routes offered to a child stands |
| Walks.ExpandOne | query_walk.go:244-272 | a claim is expanded along exactly the matching edges of the step's direction |
| Walks.WalkLevel | query_walk.go:207-287 | one turn of the loop moves from the claims at one distance to those at the next |
| Walks.QueryWalkStep | query_walk.go:169-289 | a step answers, without repeats, exactly the wanted claims arrived at from a claim at its distance within the hop bounds; cut short it answers part of them; with min 0 or 1 and one-claim routes each answer's route is the least of the shortest qualifying ones |
| Traversal.AnswersAreWalks | query_walk.go:169-289 | for min 0 or 1 those are the claims some walk of an allowed length ends at |
| Traversal.AnswersWalk | query_walk.go:169-289 | for any bounds an answer ends a walk they allow |
| Hops.BoundsKept | query_walk.go:169-289 | for every direction and valid bounds: a step answers all the claims walks of an allowed length end at, over every consistent store and frontier, exactly if the minimum is 0 or 1 |
| Hops.BoundsKeptFromOne | query_walk.go:169-289 | asked from one claim, exactly if the minimum is at most 1, or 2 in one direction, or 2 both ways with a maximum of 2 |
| Traversal.PathlessIsClosure | query_default.go:150-153 | a read with no path answers the frontier's closure as far as the scope admits it |
| Traversal.BuildIncoming | query_walk.go:138-167 | the reverse index lists exactly the references made inside the root's closure |
| Traversal.ReverseIsInverted | query_walk.go:261-271 | a reverse hop finds exactly the claims of that closure that reference this one by a matching edge |
| Traversal.StartAt | query_walk.go:93-112 | the anchors, each once |
| Traversal.QueryTraverse | query_walk.go:17-77 | the steps answer in turn; cut short in the last a read keeps part of the answer, earlier it has none |
| Deletion.CollectDue | deletion.go:32-67 | over the claims it gets to read, the sweep finds exactly those it reaches whose date has passed, and refuses a date on a structural claim |
| Deletion.Vault.DeletePlanned | deletion.go:21-79 | on success it removes exactly what is due along the claims it could read, and nothing else; on failure at most a part of what is due |
| Deletion.StrandedByDeletion | contribution.go:162-204 | exactly the undated claims of a contribution that no walk reaches without crossing a dated one |
| Deletion.OpenGraph.AddClaims | graph.go:98-114 | the open heads reach everything added |
| Deletion.OpenGraph.Consolidate | graph.go:136-181 | the one root itself, or an undated head over every open and cited root that copies their dates, as the verifier demands |
| Deletion.ConsolidationCopies | graph.go:155-162 | such a head keeps the rule on copied dates, whatever it cites |
| Deletion.OpenGraph.Complete | adapter/sequencer/concurrent/contribution.go:116-193 | every undated claim of a contribution lies below its head along undated claims |
| Deletion.NoSurvivorStranded | deletion.go:21-79 | so it stays held and reachable, whatever claims are added and planned sweeps run later, in whole or in part |
| Deletion.SecondSweepRemoves | deletion.go:49-52 | after a sweep that passed over claims it could not read, a second one at the same time removes exactly what is due and reached past one of them |
| Deletion.UnreadIsLeft | deletion.go:49-52 | a concrete store where a sweep that cannot read a due claim succeeds and leaves it, and a second one removes it |
| Deletion.ReadAllSweeps | deletion.go:49-67 | a sweep that can read every claim the heads reach misses none that is due |
| Deletion.SecondSweepIdle | deletion.go:21-22 | a second sweep at the same time removes nothing after one that could read all it came to |
| Deletion.LaterSweepRemoves | deletion.go:49-52 | after a sweep at one time a later sweep removes exactly the claims fallen due since that the heads reached over claims not due the first time |
| Deletion.LaterSweepMisses | deletion.go:49-52 | a concrete store where the one path to a claim due later leads over one removed earlier, and no later sweep finds it |
| Deletion.NeverCutExactly | deletion.go:36-56 | removing dated claims, however many, never cuts a claim off from a head exactly if a path of undated claims leads to it |
| Deletion.OneSweepCuts | deletion.go:21-79 | where there is no such path one planned sweep from the head cuts it, run late enough |
| Deletion.FoldKeepsExactly | adapter/sequencer/concurrent/concurrent.go:370-443 | a folded head keeps a claim for good exactly when it is that claim or some root of the fold has a path of undated claims to it, the prior head always if it is a root |
| Deletion.DatedHeadCutsBranch | adapter/sequencer/concurrent/concurrent.go:412-420 | a dated contribution head taken over as the branch head keeps nothing for good |
| Deletion.DatedPathCutsBranch | adapter/sequencer/concurrent/concurrent.go:394-408 | nor need an undated one: a concrete fold that leaves out the prior head it reaches over a dated claim |
| Deletion.TableCopiesExactly | adapter/sequencer/concurrent/concurrent.go:454-465 | a minted table copies its targets' dates, as the verifier demands, exactly when no head it restates carries one |
| Deletion.FoldCopiesExactly | adapter/sequencer/concurrent/concurrent.go:422-429 | and a minted head exactly when no root of its fold does |
| Fillers.Filler.Queue | adapter/storage/stack/filler.go:71-99 | an offer is deduplicated, dropped at a cap, or queued, and the byte count stays the sum of the queued sizes within both caps |
| Fillers.Filler.Take | adapter/storage/stack/filler.go:120-136 | the whole inbox goes in flight at once |
| Fillers.Filler.Idle | adapter/storage/stack/filler.go:138-147 | idle means every offer was written, was dropped, or was written through the offer standing for it |
| Fillers.Filler.Settle | adapter/storage/stack/filler.go:101-118 | queued work is always announced, so with no more offers the pending rings and the worker write all of it |
| Fillers.TotalWithout | adapter/storage/stack/filler.go:89-92 | the queued bytes do not depend on the order the inbox is read in |
| Copying.CopyClaims | universe_default.go:224-310 | a completed copy brings exactly what a walk meets before claims already held, each once, and ends |
| Copying.CopyIsMerge | universe_default.go:260-268 | into a reference-closed destination it brings exactly the roots' closure and leaves the destination closed |
| Copying.CopyClosedExactly | universe_default.go:260-268 | a completed copy is closed exactly if each reference the destination lacks is met by the walk from the roots before a claim the destination holds |
| Copying.InterruptedCopyStays | universe_default.go:260-268 | a claim left without its references by an interrupted copy is passed by when copying again |
| Streams.VerifyingReader.Read | verify_content.go:83-120 | a clean end delivers the last block of accepted bytes, an integrity error means the bytes are not accepted, and until then every block is true and the last is held back |
| Streams.ReadAll | verify_content.go:42-120 | with buffers and chunks of any sizes, reading to the end succeeds exactly when the whole-buffer check accepts, and delivers the content |
| Streams.ReadNothing | verify_content.go:87-91 | with size 0 the stream ends unread, which agrees with the whole check only for empty content of the digest asked for |
| Partitions.ShardOf | adapter/storage/partition/partition.go:54-64 | Horner over the bytes computes the base-256 value of the key modulo the number of shards |
| Partitions.GroupIds | adapter/storage/partition/partition.go:368-379 | each key's position is in its shard's group, and keyless positions in none |
| Partitions.Read | adapter/storage/partition/partition.go:106-221 | grouped reads answer position by position as one store would |
| Partitions.Partition.Put | adapter/storage/partition/partition.go:66-104 | grouped writes change what one store would; on a failure each key has its old value or that of an entry for it |
| Partitions.Partition.Delete | adapter/storage/partition/partition.go:160-185 | grouped removals remove exactly the keys named; on a failure no other key is gone |
| Partitions.RoutedSuffices | adapter/storage/partition/partition.go:66-84 | a shard sees, in order, every entry that could change its keys |
| Stacks.HasClaims | adapter/storage/stack/stack.go:316-338 | true at exactly the positions some layer holds |
| Stacks.GetClaims | adapter/storage/stack/stack.go:191-253 | each position gets its own claim in the form asked for, and the read succeeds exactly when every claim is served by some layer |
| Stacks.GetContents | adapter/storage/stack/stack.go:255-314 | each position gets intact bytes kept under its hash, and the read succeeds whenever the bottom layer holds every blob intact |
| Stacks.OneAnswer | adapter/storage/stack/stack.go:255-314 | where the layers agree on their keys the answer is that of any intact copy |
| Budgets.ContentBudget.Take | query_content.go:35-56 | whatever the budget was spent on before, with one more value what was kept is again what the cap affords of the whole sequence |
| Budgets.EncodeCbor | codec.go:153-215 | the record keeps, slot by slot over the edges and then the node, what the read's content option affords |
| Budgets.EncodeJson | codec.go:284-352 | and so does the JSON form |
| Budgets.EncodersAgree | codec.go:340-350 | so the two carry the same content |
| Budgets.KeptIsPrefix | query_content.go:9-17 | what is kept is a prefix of the content sequence within the cap, exactly min(cap, total) long under cutoff |
| Budgets.FittingFits | query_content.go:35-56 | under omit the kept values stay within the cap and the next one overruns it |
| QueryCodec.WhereTrip | query_codec.go:304-336 | a where tree of any depth reads back as itself |
| QueryCodec.ComparisonTrip | query_codec.go:338-370 | a comparison with one operator reads back as itself, false and 0 operands included |
| QueryCodec.StepTrip | query_codec.go:476-486 | a path step reads back as itself, a stated 0 minimum included |
| QueryCodec.AnchorsTrip | query_codec.go:464-475 | distinct anchors read back as they were, one as a string and several as an array |
| QueryCodec.OutputTrip | query_codec.go:531-551 | the output axes read back, the native encoding dropped |
| QueryCodec.BuildGet | query_codec.go:49-62 | each field reads back from the object as it was printed |
| QueryCodec.QueryTrip | query_codec.go:17-47 | DecodeQuery of EncodeQuery is every valid query in its wire form, unless it asks for the error or warn report, which the wire refuses |
| QueryCodec.DecodedTrip | query_codec.go:17-47 | a decoded query printed and read again is itself, exactly when it names no id twice |

## Left out

- Signatures, key windows, hashing and CBOR bytes: a digest is an injective function that no
  chain of references can close a cycle under, and rules read off one record alone are a
  parameter (`extra`).
- The rules on deletion dates and on references to branch tables in the pruned walk: soundness
  over whole runs is proved of heights and creation dates, which a minted claim always keeps.
- `Diffs.MaterializeOne`: fields and content, which `Nodes` models over a chain of predecessors
  given as one value.
- `Bookmarks.List.VerifyGapless`: what each entry's head must be, and its signature.
- `Verifier.RunVerification`: the checks of the walk's roots, rules a run is told to skip, and
  reads that fail for another reason than absence.
- `Copying.CopyClaims` and `Deletion.Vault.DeletePlanned`: external content, which goes along with
  its claim.
- `Deletion.LaterSweepRemoves`: claims the earlier sweep could not read, which are met at one time
  in `Deletion.SecondSweepRemoves`.
- `Partitions.Read`: `GetClaims` turns a missing claim into an error, and materialises across
  shards.
- `Stacks.GetClaims` and `Stacks.GetContents`: the writes back to upper layers, and of a claim all
  but its id and form.
- `QueryCodec.DecodedTrip`: nulls. The source refuses a null `claim`, takes a null path step for
  an empty one, and lets a repeated field that ends in null keep an earlier string. The model takes
  every null for an absent field.
- `Merges.StepKeeps`: that the steps of one drain compose to `Sequencers.Sequencer.Commit`. The
  two are held to one contract (`MergedAll`, `Leaves`, `IsTable`), each by its own proof.
- `MergeRuns.CommittedIsSound` and `Minting.MintSettled` assume a clock that never runs
  backwards, over restarts too, and stores from which nothing has been deleted.
- `Bookmarks.List.Bounds`: a list opened by its seed is taken to start at index 0, and one with
  its beginning purged is searched from a surviving entry.
- Explaining gaps by the edge first met: the outcome depends on the order of the walk. The model
  has the marks that excuse a gap and takes complete stores in its theorems.
- `Membership.InClosure`: the tag short cut of `GetFromClosure`, which compares no height. What a
  tag says of a snapshot is `Tagger.TagIsPointInTime`.
- `Tagger.Index.TagArchive`: a spine's tables are diffs of one another, as both Sequencers mint
  them, so the older `branches` edge is not followed.
- `Traversal.BuildIncoming`: how often a reference is listed, and in which order.
- `Traversal.QueryTraverse`: canonical routes over several steps, where routes of different
  lengths meet, and the filter, order and limit applied afterwards.
- `Serial.Dev.Merge`: each contribution names a head for every branch it touches, as
  `CompleteAndVerify` seals it.
- `Fillers.Filler.Put`: whether a layer took the batch, since the worker discards failures.
- `Fillers.Filler.Queue`: the spelling of a key as an id and a layer number.
- `Partitions.ShardOf`: wrap-around of 64-bit arithmetic, which the running remainder stays
  clear of for fewer than 2^56 shards.
- `Streams.ReadAll`: a source that returns neither bytes nor an error.
- `QueryCodec.QueryTrip`: the text of JSON, its matching of names regardless of case, and the
  range of machine integers. Ids and durations are spelled by functions with a stated law.
- Absent ids inside claims, cancellation beyond "a step may fail", real time beyond the clock's
  order, execution reports, and error wrapping.
- Type taxonomies, branch-name characters, access constraints, wire streams and bookmark
  signatures: finite checks, or library work.
- The `fs`, `s3`, `azure`, `redis`, `rest`, `sqlite` and `neo4j` backends, the CLI, key loading
  and the conformance scenarios: what they do is fixed by other systems.
- EDTF dates and the default collation of mixed values.
