# Vision Bill, verified

A Dafny model of the parts of Vision Bill whose correctness is hard to see from one
function: photos of one receipt that overlap, images analysed by concurrent workers, a
benchmark queue with leases and retries, receipts that keep their line identities and a
category memory, item statistics that must reconcile, benchmark scores, and collections
shared by concurrent requests. `dafny verify dfyconfig.toml` checks all of it.

Three shapes recur.

* **Code.** A loop that fills dictionaries or rewrites rows is a method with the same loop, a
  class with tables as map fields stands for a database class, and a refused update restores
  the rows it had changed. Each method is proved against a specification function or
  predicate of its inputs or of the old tables.
* **Protocols.** Where statements are committed one by one and several workers interleave,
  one statement is one step of a state machine, a worker's place between two statements is
  part of the state, and a crash is a step that may come anywhere. `Run`, `After` and an
  invariant proved for one step give theorems about every interleaving. The sequential code
  is proved to be a run of its protocol (image scheduler, benchmark queue), or an
  uninterrupted job of the protocol is proved to do what the method does (every operation on
  collections that has more than one statement).
* **Laws.** Lemmas about the specifications say what the code is for.

Times are integers in seconds, identifiers are numbers that are never issued twice, tables are
maps, money is `real`. What the outside world decides (a model's answer, a missing file, a
failing transaction) is a parameter or a nondeterministic step.

| files | what they model |
|---|---|
| `Prelude`, `Sorting`, `TextKeys`, `ReceiptModel` | shared shapes; `sorted`; text keys; the receipt |
| `Duplicates`, `Overlap`, `OverlapSafety` | multi-photo reconciliation |
| `ImageAnalysis`, `ImageClaims`, `ImageRaces`, `ImageScheduler`, `WakeLoop` | the image queue, its workers and the background loop |
| `BenchmarkQueue`, `BenchmarkLedger`, `BenchmarkWorkers`, `BenchmarkCounts`, `BenchmarkService` | the benchmark queue, its counters and its worker |
| `Scoring` | benchmark scores |
| `ReceiptTables`, `ReceiptMemory`, `ReceiptIdentity`, `ReceiptDB` | stored receipts and the category memory |
| `Months`, `Statistics`, `StatisticsLaws`, `StatisticsMonths`, `StatisticsBuilder`, `StatisticsQuery` | item statistics |
| `CollectionTables`, `CollectionService`, `CollectionProtocol`, `CollectionOwnership`, `CollectionAlone` | collections |

## Where the code does not do what one might expect

The model follows the code. Each of these is a theorem.

* An in-request analysis does not look for an existing receipt, so it can take the
  verification of a receipt away (`ImageRaces.UploadsLoseVerification`). No timely scheduler
  worker can (`ImageClaims.VerifiedIsLostOnlyToUploads`), but one that acts after its claim has
  expired can (`ImageRaces.LateWorkersLoseVerification`).
* `create_run` is three statements. A task that finishes between the second and the third is
  counted nowhere (`BenchmarkCounts.EarlyFinishIsLost`). The counters of a run agree with its
  tasks if and only if that never happened (`BenchmarkCounts.CountersAgree`), so they do when
  nothing interrupts the creation (`BenchmarkCounts.CountersAgreeIfCreatedAtOnce`).
* `task_counts` is two statements and can report more tasks than there are
  (`BenchmarkCounts.OvercountHappens`), exactly when a task of the run finishes between them
  (`BenchmarkCounts.TwoReadsOvercount`).
* Saving a receipt as it was read is the identity except for lines that have a description but
  no original description (`ReceiptMemory.WriteBackIsIdentity`); an item that was extracted
  without text and named later is one (`ReceiptMemory.NamedLaterIsRefilled`).
* A missing tip never equals a missing tip, so a receipt without one scores 0.93 against itself
  (`Scoring.SelfScore`).
* Amounts one cent apart compare equal, except half a cent and minus half a cent, which round
  away from each other (`Scoring.CentIsTolerated`, `Scoring.OnePairIsNotTolerated`; the witness
  is `Scoring.SignsMatter`).
* The doc comment of `CollectionDB.activate` says that it deactivates the user's other active
  collection. For a caller who sees all rows it does not, and the unique index refuses while
  there is one (`CollectionService.CollectionDB.Activate`,
  `CollectionOwnership.SeeAllActivationIsRefused`).
* A caller who sees all rows can link a receipt to a collection of another owner, and only such
  a caller can (`CollectionOwnership.LinksStayWithinOwners`).
* Two overlapping activations of one user are kept apart only by that index
  (`CollectionOwnership.OverlapNeedsTheIndex`); activations that do not overlap need none
  (`CollectionOwnership.SerialActivationsNeedNoIndex`).

## Model

| member | source | states |
|---|---|---|
| Duplicates.DefaultsMeanSameRow | src/vision_bill/helper/duplicates.py:9-31 | for any similarity that reaches 1 exactly on equal strings, the default check never raises and holds exactly for named rows with equal normalised name, quantity and line total |
| TextKeys.NormalizersAgree | src/vision_bill/model/item_category.py:53-55 | folding after or before splitting is the same: row names in overlaps and keys in the category memory are the same text |
| TextKeys.KeyIsIdempotent | src/vision_bill/model/item_category.py:53-55 | a key is its own key |
| TextKeys.EmptyKeyIsBlank | src/vision_bill/provider/db/receipt_db.py:400-403 | the empty key is the key of blank text and of nothing else, so the guards on `strip()` and on the key agree |
| Sorting.SortFinds | src/vision_bill/model/receipt_extraction.py:41 | a list is sorted into the one sorted permutation it has, whatever order it came in |
| Overlap.IsSorted | src/vision_bill/model/receipt_extraction.py:25-26 | comparing the sources with their sort decides whether the rows are grouped by photo |
| Overlap.GroupByPhoto | src/vision_bill/model/receipt_extraction.py:30-37 | the dictionary holds, per photo, exactly its candidates in proposed order, or the first bad candidate decides the error |
| Overlap.BoundaryDecided | src/vision_bill/model/receipt_extraction.py:40-50 | sorted candidates equal the zipped slices exactly when they are, without repeats, the ordered pairing of a suffix of one photo with an equally long prefix of the next |
| Overlap.CheckBoundary | src/vision_bill/model/receipt_extraction.py:40-52 | a boundary is accepted exactly when it is such a pairing, and its repeated rows are dropped together or not at all |
| Overlap.KeptAreBlocks | src/vision_bill/model/receipt_extraction.py:54-59 | filtering rows by the removed set gives the photos in order, each without its verified prefix |
| Overlap.Reconciled | src/vision_bill/model/receipt_extraction.py:24-60 | accepts exactly the extractions that are grouped, in range and adjacent with a pairing at every boundary; returns the blocks concatenated; reports the first failed check otherwise |
| OverlapSafety.ProposalOrderIsIrrelevant | src/vision_bill/model/receipt_extraction.py:30-52 | acceptance and result depend on the multiset of candidates only |
| OverlapSafety.LatestPhotoIsReadable | src/vision_bill/model/receipt_extraction.py:39-59 | the rows kept so far end with all row keys of the latest photo, also when overlaps chain through photos dropped entirely |
| OverlapSafety.PhotoSurvives | src/vision_bill/model/receipt_extraction.py:39-59 | every photo's row keys appear in the result in order and without gaps |
| OverlapSafety.RepeatPurchasesSurvive | src/vision_bill/helper/duplicates.py:19-24 | the multiset of a photo's row keys is contained in the multiset of surviving keys: no genuine repeat purchase is lost |
| OverlapSafety.StepToOrigin | src/vision_bill/model/receipt_extraction.py:51-52 | a dropped row was proposed as the repeat of an equal row of the photo before |
| OverlapSafety.OriginIsKept | src/vision_bill/model/receipt_extraction.py:39-59 | following those repeats back ends at a kept row with an equal key on an earlier photo |
| OverlapSafety.OriginIsInjective | src/vision_bill/model/receipt_extraction.py:46-52 | different rows of one photo end at different kept rows, in the same order |
| ImageAnalysis.StepKeepsConsistent | src/vision_bill/provider/db/image_db.py:34-55 | one statement of any worker, request, user or crash keeps ids unique, foreign keys valid, one receipt per image and links mutual |
| ImageAnalysis.EveryInterleavingIsConsistent | alembic/versions/0002_analysis_integrity_and_indexes.py:45-76 | in every interleaving from an empty database an image has at most one receipt, and the receipt an image names exists and names that image |
| ImageClaims.ClaimsAreExclusive | src/vision_bill/provider/db/image_db.py:34-44 | if every worker acts within its 15 minutes, two workers within their claims never hold the same image |
| ImageClaims.PersistNeverOverwrites | src/vision_bill/service/analysis_scheduler.py:150-189 | under that timing a scheduler worker's persist never finds a receipt to update and changes no existing one, with uploads running too |
| ImageClaims.VerifiedIsLostOnlyToUploads | src/vision_bill/api/images.py:134-194 | a step takes a receipt's verification away exactly when it is an in-request analysis without review bypass that updates it |
| ImageClaims.VerifiedStaysVerified | src/vision_bill/service/analysis_scheduler.py:143-189 | without in-request analyses a verified receipt stays verified for as long as it exists, over any timely run |
| ImageClaims.RecoveryNeverExtracts | src/vision_bill/service/analysis_scheduler.py:150-153 | once an image has a receipt, however its worker ended, no later step of a timely scheduler-only run extracts it again |
| ImageClaims.RecoveryLinks | src/vision_bill/service/analysis_scheduler.py:150-153 | the next claim after a crash between persist and mark links the receipt and changes no receipt |
| ImageRaces.UploadsLoseVerification | src/vision_bill/api/images.py:134-194 | a timely run in which an in-request analysis makes a verified receipt unverified |
| ImageRaces.LateWorkersLoseVerification | src/vision_bill/provider/db/receipt_db.py:42-68 | without the timing a scheduler-only run does so too: a worker whose claim expired updates the verified receipt |
| ImageScheduler.PendingAreClaimable | src/vision_bill/provider/db/image_db.py:27-32 | the listed images are exactly the claimable ones, once each, oldest first |
| ImageScheduler.Database.ClaimForAnalysis | src/vision_bill/provider/db/image_db.py:177-181 | claims exactly a claimable image and changes nothing else |
| ImageScheduler.Database.PersistReceipt | src/vision_bill/provider/db/receipt_db.py:450-464 | updates the image's receipt if it has one, inserts one for an existing image otherwise, and changes nothing when the transaction fails |
| ImageScheduler.AnalysisScheduler.LinkExisting | src/vision_bill/service/analysis_scheduler.py:144-153 | an image with a receipt is linked to it, as a run of the protocol without an extraction, and nothing else changes |
| ImageScheduler.TimelyWithinTheClaim | src/vision_bill/config.py:51-52 | an extraction is timely exactly when it ends within the 15-minute claim, hence always under the 600-second deadline |
| ImageScheduler.AnalysisScheduler.AnalyzeFile | src/vision_bill/service/analysis_scheduler.py:155-189 | the clock advances by the extraction, cut off at the configured deadline, after which the outcome is a timeout; because the deadline stays below the claim the whole is a timely run; a new receipt holds the extracted content and is verified exactly if the image bypasses review |
| ImageScheduler.AnalysisScheduler.AnalyzeOne | src/vision_bill/service/analysis_scheduler.py:143-205 | is a timely run of the protocol of known duration, ends in the status its environment determines, and touches only its image and at most one new receipt, which an image without one gets with the extracted content and its bypass flag |
| ImageScheduler.AnalysisScheduler.ProcessPending | src/vision_bill/service/analysis_scheduler.py:118-141 | a cycle, with time passing in every extraction, is a timely run that settles every image queued at its start, in order, skips those another worker claims first, and changes nothing else; every new receipt holds what was extracted from its image; with no provider it changes nothing |
| WakeLoop.TriggersAreNeverLost | src/vision_bill/service/analysis_scheduler.py:84-108 | while a trigger is unserved the wake event is set, or the loop is between its clear and its cycle, or the loop is stopped |
| WakeLoop.LoopIsNeverStuck | src/vision_bill/service/analysis_scheduler.py:88-108 | with an unserved trigger a started loop has a next step that needs no timeout, or waits for the lock of a manual cycle that can end |
| WakeLoop.TriggerIsServed | src/vision_bill/service/analysis_scheduler.py:84-108 | whatever else happens, if the loop is not stopped a step within its next four begins a cycle after which the trigger is served |
| WakeLoop.TriggerAloneSuffices | src/vision_bill/service/analysis_scheduler.py:84-108 | from every reachable state with an unserved trigger the started loop serves it in at most five steps, none of them a timeout |
| BenchmarkLedger.StepKeepsLedger | src/vision_bill/provider/db/benchmark_db.py:65-87 | a statement of a worker that owns its task keeps rows, balances, summary ranges and exact completion |
| BenchmarkLedger.FinishKeepsBalance | src/vision_bill/provider/db/benchmark_db.py:82-87 | a finish moves one task from remaining to completed of its own run and model |
| BenchmarkWorkers.StepKeepsHealthy | src/vision_bill/service/benchmark_service.py:110-151 | under one worker at a time, or many that act before their lease ends, a step keeps ledger, ownership and backoff |
| BenchmarkWorkers.TasksHaveOneHolder | src/vision_bill/provider/db/benchmark_db.py:65-75 | with workers that act before `leased_until`, no two within their lease hold the same task |
| BenchmarkCounts.CountersAgree | src/vision_bill/provider/db/benchmark_db.py:82-87 | over every run of lease, retry, finish and crash: completed is succeeded plus failed; completed plus remaining is the number of receipts if and only if no step finished a task of the model between the task and the summary inserts; the run is completed exactly when no task is left |
| BenchmarkCounts.CountersAgreeIfCreatedAtOnce | src/vision_bill/provider/db/benchmark_db.py:24-41 | if the summary inserts directly follow the task inserts, completed plus remaining is the number of receipts |
| BenchmarkCounts.WhenAFinishIsUnrecorded | src/vision_bill/provider/db/benchmark_db.py:39-40 | a finish goes uncounted exactly between the task and summary inserts of `create_run` |
| BenchmarkCounts.EarlyFinishIsLost | src/vision_bill/provider/db/benchmark_db.py:24-41 | a run that is completed with a summary that counts nothing |
| BenchmarkWorkers.AveragesAreInRange | src/vision_bill/provider/db/benchmark_db.py:60-63 | average score in [0,1], average confidence in [0,100], average attempts at least 1 |
| BenchmarkWorkers.TotalDelayClosedForm | src/vision_bill/provider/db/benchmark_db.py:77-80 | k backoff delays add up to 5(2^k - 1) seconds for k up to 6 and 315 + 300(k - 6) after |
| BenchmarkWorkers.RetriesBackOff | src/vision_bill/provider/db/benchmark_db.py:65-80 | a running task that was put back k times is at least that old |
| BenchmarkCounts.SnapshotAddsUp | src/vision_bill/provider/db/benchmark_db.py:53-58 | one snapshot of the counts of a created run never adds up to more than models times receipts, and to exactly that if and only if no task finished before the summary rows existed |
| BenchmarkCounts.SnapshotAddsUpIfCreatedAtOnce | src/vision_bill/provider/db/benchmark_db.py:53-58 | so it always does for a run that was created without interruption |
| BenchmarkCounts.TwoReadsOvercount | src/vision_bill/provider/db/benchmark_db.py:53-58 | read in two statements the counts are never too low, and right if and only if no step in between finished a task of the run |
| BenchmarkCounts.OvercountHappens | src/vision_bill/provider/db/benchmark_db.py:53-58 | a run whose one task is reported twice |
| BenchmarkService.BenchmarkDB.CreateRun | src/vision_bill/provider/db/benchmark_db.py:20-41 | is the run of its three statements; a repeated model or receipt stops it after the run row |
| BenchmarkService.CreateIsARun | src/vision_bill/provider/db/benchmark_db.py:24-41 | uninterrupted, those statements store the run, every model with every receipt, and a zero summary per model |
| BenchmarkService.BenchmarkDB.LeaseTask | src/vision_bill/provider/db/benchmark_db.py:65-75 | leases the first eligible task in order, as the protocol's step, and returns none exactly when none is eligible |
| BenchmarkService.BenchmarkDB.RetryTask | src/vision_bill/provider/db/benchmark_db.py:77-80 | is the protocol's retry step |
| BenchmarkService.BenchmarkDB.FinishTask | src/vision_bill/provider/db/benchmark_db.py:82-87 | is the protocol's finish step |
| BenchmarkService.BenchmarkDB.CountByStatus | src/vision_bill/provider/db/benchmark_db.py:55 | one pass over the task rows counts every remaining task of the run under its status, and the four counters add up to the remaining tasks |
| BenchmarkService.BenchmarkDB.TaskCounts | src/vision_bill/provider/db/benchmark_db.py:53-58 | the four counters and the sum over the run's summary rows; for a created run whose ledger balances they add up to models times receipts |
| BenchmarkService.BenchmarkDB.SumCompleted | src/vision_bill/provider/db/benchmark_db.py:56 | adds up the completed counts of the run's summary rows, in whatever order they are read |
| BenchmarkService.Execute | src/vision_bill/service/benchmark_service.py:124-151 | one execution is exactly one step of the queue: retry, wait for the model, fail, succeed, put back a success that cannot be stored, or leave the task leased when its run is gone or a statement raises |
| Scoring.EqualMoneyIsClose | src/vision_bill/service/benchmark_scoring.py:17-25 | amounts that compare equal differ by at most 0.02 |
| Scoring.CloseMoneyIsEqual | src/vision_bill/service/benchmark_scoring.py:17-25 | amounts of one sign at most 0.01 apart compare equal |
| Scoring.CentIsTolerated | src/vision_bill/service/benchmark_scoring.py:17-25 | amounts at most 0.01 apart compare equal if and only if they do not lie on different sides of zero with magnitudes of at least half a cent |
| Scoring.OnePairIsNotTolerated | src/vision_bill/service/benchmark_scoring.py:17-25 | so exactly 0.005 and -0.005 compare different |
| Scoring.SignsMatter | src/vision_bill/service/benchmark_scoring.py:17-25 | which are a cent apart and do |
| Scoring.ScoresAreFractions | src/vision_bill/service/benchmark_scoring.py:28-82 | every component and the overall score lie in [0,1] |
| Scoring.SelfScore | src/vision_bill/service/benchmark_scoring.py:32-82 | a receipt scores 1 against itself in every component but the totals, which lose the tip if it has none |
| Scoring.NothingBeatsTheTruth | src/vision_bill/service/benchmark_scoring.py:32-82 | no extraction scores above the expected receipt itself, in any component |
| Scoring.PerfectMeansEveryPartMatches | src/vision_bill/service/benchmark_scoring.py:32-82 | the overall score is 1 exactly when header, totals, items and taxes match completely and have equal lengths |
| ReceiptMemory.UpdateKeepsIdentity | src/vision_bill/provider/db/receipt_db.py:531-566 | every line of an accepted update is new, or continues a different line of the same receipt and keeps its non-empty original description |
| ReceiptMemory.UpdateKeepsGood | src/vision_bill/provider/db/receipt_db.py:525-585 | an update keeps positions 0..n-1, distinct ids, honest sources and known aliases, for all receipts |
| ReceiptMemory.PersistKeepsGood | src/vision_bill/provider/db/receipt_db.py:450-485 | so does a persist, inserting or updating by image |
| ReceiptMemory.EveryReachableReceiptIsGood | src/vision_bill/provider/db/receipt_db.py:346-366 | over every sequence of persists, updates, verifications and deletions: positions are 0..n-1, no line id occurs twice anywhere, source `unknown` has category `unknown` and sources `llm` and `history` have a known one |
| ReceiptIdentity.IdsStay | src/vision_bill/provider/db/receipt_db.py:525-585 | over every sequence of persists, updates, verifications and deletions an issued line id stays with its receipt, keeps its non-empty original description, and never comes back once it is gone |
| ReceiptIdentity.SameIdSameLine | src/vision_bill/provider/db/receipt_db.py:525-585 | lines that have one id at two moments of a run are lines of one receipt, and the later has the earlier's non-empty original description |
| ReceiptIdentity.LegacyAgrees | src/vision_bill/provider/db/receipt_db.py:537-548 | when count, order and descriptions match, an update without ids gives the same result as the same update with the ids, whatever categories, details or remember flags it carries |
| ReceiptMemory.WriteBack | src/vision_bill/provider/db/receipt_db.py:530-566 | writing back what was read, with or without ids, is accepted, keeps ids, categories and sources, teaches nothing, and fills in missing original descriptions |
| ReceiptMemory.WriteBackIsIdentity | src/vision_bill/provider/db/receipt_db.py:551-566 | it is the identity if and only if every line with a description has an original description |
| ReceiptMemory.NamedLaterIsRefilled | src/vision_bill/provider/db/receipt_db.py:551 | a reachable receipt for which it is not |
| ReceiptMemory.LastTeacherWins | src/vision_bill/provider/db/receipt_db.py:567-581 | an accepted update changes exactly the taught keys, and each holds what its last teacher left |
| ReceiptMemory.RememberedItemsTeach | src/vision_bill/provider/db/receipt_db.py:567-572 | a remembered item teaches its original and its edited description, unless blank |
| ReceiptMemory.OthersAreLeftAlone | src/vision_bill/provider/db/receipt_db.py:567-581 | aliases of other owners and other merchants are out of an update's reach |
| ReceiptMemory.HistoryRecalls | src/vision_bill/provider/db/receipt_db.py:393-409 | the history of a receipt holds, for each description, the owner's alias of its key |
| ReceiptMemory.PersistRecalls | src/vision_bill/provider/db/receipt_db.py:466-485 | each persisted line takes the recalled category with source `history`, or else the model's own with `llm` or `unknown` |
| ReceiptMemory.TeachThenRecall | src/vision_bill/provider/db/receipt_db.py:466-581 | after an accepted update whose item is the last to teach a key, and any operations that leave the key alone, a receipt of the same user and normalised merchant takes the taught category for every item with that key, or the model's own if `unknown` was taught |
| ReceiptDB.ReceiptDB.HistoryForItems | src/vision_bill/provider/db/receipt_db.py:394-409 | the lookup loop computes the history map |
| ReceiptDB.ReceiptDB.InsertChildren | src/vision_bill/provider/db/receipt_db.py:346-366 | the insert loop writes rows in order, reusing decided ids and drawing fresh ones otherwise |
| ReceiptDB.ReceiptDB.PersistReceipt | src/vision_bill/provider/db/receipt_db.py:413-487 | new tables as the specification says, for the receipt the image already has or a new one |
| ReceiptDB.ReceiptDB.Remember | src/vision_bill/provider/db/receipt_db.py:567-581 | teaching a set of keys one by one has the same effect in any visiting order |
| ReceiptDB.ReceiptDB.UpdateReceipt | src/vision_bill/provider/db/receipt_db.py:489-587 | an accepted update leaves the specified tables; a refused one leaves rows and aliases exactly as they were, even after aliases were written in its loop |
| ReceiptDB.RefusedForGood | src/vision_bill/provider/db/receipt_db.py:540-548 | the first refused item refuses the whole update with its error |
| Months.MonthStartIsAdditive | src/vision_bill/service/item_statistics_service.py:21-23 | month offsets add up |
| Months.MonthStartIsIncreasing | src/vision_bill/service/item_statistics_service.py:21-23 | later offsets give strictly later months, and only those do |
| Months.WindowIsAscending | src/vision_bill/service/item_statistics_service.py:75-76 | the window visits its months once, in order, and ends with the current one |
| Months.PeriodIsWindow | src/vision_bill/service/item_statistics_service.py:120-127 | a date up to today is in the queried period exactly when its month is in the window |
| StatisticsBuilder.Accumulate | src/vision_bill/service/item_statistics_service.py:39-61 | the seven dictionaries hold the sums of their buckets under exactly the keys that occur |
| StatisticsBuilder.BuildItemStatistics | src/vision_bill/service/item_statistics_service.py:32-105 | returns the report of the rows: its three lists with their totals and shares, in their sort orders |
| StatisticsLaws.ReportIsUnique | src/vision_bill/service/item_statistics_service.py:63-97 | rows have one report |
| StatisticsLaws.SumOfParts | src/vision_bill/service/item_statistics_service.py:46-61 | a bucket is the sum of any buckets that partition its rows |
| StatisticsLaws.TotalsReconcile | src/vision_bill/service/item_statistics_service.py:46-97 | per currency, items are deposits plus all categories, and items plus unallocated are receipts |
| StatisticsLaws.MonthsAddUp | src/vision_bill/service/item_statistics_service.py:74-87 | if every item lies in the window, each category's monthly totals add up to its total |
| StatisticsLaws.HistoryVisitsEachMonth | src/vision_bill/service/item_statistics_service.py:74-87 | the history has one entry per month and category, month by month |
| StatisticsLaws.SharesNeedSpending | src/vision_bill/service/item_statistics_service.py:26-73 | a category of a report has a share exactly when the report's category totals of that currency add up to more than zero |
| StatisticsLaws.SharesAddUp | src/vision_bill/service/item_statistics_service.py:26-29 | k shares rounded half to even add up to 100 within 0.005k, also with negative amounts |
| StatisticsLaws.CategorySharesAddUp | src/vision_bill/service/item_statistics_service.py:63-73 | so do the shares of one currency in any report |
| StatisticsMonths.InMonthOfHistory | src/vision_bill/service/item_statistics_service.py:74-87 | the history lists a month of the window and a currency in one stretch, with every category, and no other month |
| StatisticsMonths.MonthSharesNeedSpending | src/vision_bill/service/item_statistics_service.py:26-87 | an entry of a report's history has a share exactly when the listed totals of its month and currency add up to more than zero |
| StatisticsMonths.MonthSharesAddUp | src/vision_bill/service/item_statistics_service.py:26-87 | and those shares of one month and currency add up to 100 within 0.005 times their number |
| StatisticsLaws.GroupingKeepsSums | src/vision_bill/provider/db/item_statistics_db.py:24-31 | grouping rows changes no bucket's sum and no occurrence |
| StatisticsLaws.PreAggregationKeepsTheReport | src/vision_bill/provider/db/item_statistics_db.py:24-31 | grouped rows and ungrouped rows have the same reports |
| StatisticsQuery.GroupRowsGroup | src/vision_bill/provider/db/item_statistics_db.py:24-31 | adding rows up key by key is a grouping |
| StatisticsQuery.ItemStatistics | src/vision_bill/service/item_statistics_service.py:112-128 | the service returns the report of the verified receipts and items in scope, as if they had not been aggregated |
| StatisticsQuery.StatisticsOfDatabase | src/vision_bill/service/item_statistics_service.py:112-128 | that report reconciles, and its months add up because the queried period is the window |
| StatisticsQuery.CollectionsCountOnce | src/vision_bill/provider/db/item_statistics_db.py:19-22 | link rows are only asked whether one exists: further link rows of a receipt, of this or other collections, change no row |
| StatisticsQuery.ReceiptsCountOnce | src/vision_bill/provider/db/item_statistics_db.py:13-31 | each receipt in scope contributes exactly one receipt row with its total, however many items and link rows it has |
| CollectionService.CollectionDB.Create | src/vision_bill/provider/db/collection_db.py:104-119 | a new active collection becomes its user's only active one and leaves other users alone |
| CollectionService.CollectionDB.Activate | src/vision_bill/provider/db/collection_db.py:209-232 | for an owner a foreign collection is a no-op and an own one becomes the only active one; for a caller who sees all rows it fails exactly when another collection of the owner is active |
| CollectionService.CollectionDB.SetReceiptCollections | src/vision_bill/provider/db/collection_db.py:252-256 | replaces the receipt's links; a missing target leaves exactly the links before it |
| CollectionService.CollectionDB.CaptureToActive | src/vision_bill/service/receipt_service.py:132-145 | a persisted receipt joins its owner's active collection, and nothing changes without one |
| CollectionService.ActivateCollection | src/vision_bill/service/collection_service.py:67-73 | not found exactly for a collection the caller does not see; an owner never meets the index |
| CollectionService.AssignReceipt | src/vision_bill/service/collection_service.py:111-124 | links exactly when the caller sees collection and receipt, and then no foreign key fails |
| CollectionService.UnassignReceipt | src/vision_bill/service/collection_service.py:126-131 | unlinks exactly when the caller sees the collection |
| CollectionService.SetCollections | src/vision_bill/service/collection_service.py:136-152 | afterwards the receipt is in exactly the given collections, or, if the caller does not see the receipt or a target, nothing has changed |
| CollectionOwnership.OneActivePerUser | alembic/versions/0004_add_collections.py:46-49 | in every interleaving of separately committed statements each user has at most one active collection |
| CollectionOwnership.SerialActivationsNeedNoIndex | src/vision_bill/provider/db/collection_db.py:114-118 | without the index the clearing statements alone ensure it when activations of one user do not overlap |
| CollectionOwnership.OverlapNeedsTheIndex | src/vision_bill/provider/db/collection_db.py:113-118 | without the index two overlapping creations leave two active collections |
| CollectionOwnership.SeeAllActivationIsRefused | src/vision_bill/provider/db/collection_db.py:224-231 | a run in which a caller who sees all rows activates a user's second collection: the index refuses and nothing changes |
| CollectionOwnership.StepKeepsSound | src/vision_bill/service/collection_service.py:111-152 | what a confined caller's job has checked stays true while the rows exist, since owners never change and ids are not reused |
| CollectionOwnership.StepCrosses | src/vision_bill/service/collection_service.py:111-152 | a step makes a link across owners exactly when it is the insert, for a caller who sees all rows, of an existing receipt into an existing collection of another owner |
| CollectionOwnership.LinksStayWithinOwners | src/vision_bill/service/collection_service.py:111-152 | in every run the existing links across owners are exactly those that such a step of the run inserted |
| CollectionOwnership.ConfinedLinksStayWithinOwners | src/vision_bill/service/receipt_service.py:132-145 | if no caller sees all rows, every link, auto-captured ones included, joins rows of the same owner |
| CollectionOwnership.SeeAllLinksAcrossOwners | src/vision_bill/service/collection_service.py:111-124 | a caller who sees all rows can link across owners |
| CollectionAlone.SetCollectionsAlone | src/vision_bill/service/collection_service.py:136-152 | the job of the protocol, run without interruption, replaces the links or changes nothing |
| CollectionAlone.ActivateAlone | src/vision_bill/provider/db/collection_db.py:224-231 | the activation job of an owner, run without interruption, makes the collection the only active one or changes nothing |
| CollectionAlone.SeeAllActivateAlone | src/vision_bill/provider/db/collection_db.py:224-231 | that of a caller who sees all rows activates the collection if the index allows it |
| CollectionAlone.CreateAlone | src/vision_bill/provider/db/collection_db.py:113-118 | the creation job leaves what `Create` leaves |
| CollectionAlone.AssignAlone | src/vision_bill/service/collection_service.py:111-124 | the assignment job links exactly if the caller sees collection and receipt |
| CollectionAlone.UnassignAlone | src/vision_bill/service/collection_service.py:126-131 | the removal job unlinks exactly if the caller sees the collection |
| CollectionAlone.CaptureAlone | src/vision_bill/service/receipt_service.py:132-145 | the capture job links the receipt to the active collection found, if any |

## Left out

- ImageAnalysis.EveryInterleavingIsConsistent: an extracted receipt is one number here, its columns are modelled in `ReceiptTables`; files on disk are not modelled.
- ImageClaims.VerifiedStaysVerified: holds for workers that act within their claim, which the extraction deadline enforces for the extraction but not for the statements around it; in-request analyses are excluded because the code does not promise it for them.
- ImageScheduler.AnalysisScheduler.AnalyzeOne: only extraction takes time, and of failing statements only the persist transaction is modelled in the sequential code; the protocol lets every statement after the extraction fail and any worker crash.
- WakeLoop.TriggersAreNeverLost: the scheduler's event, lock and task are parts of the protocol's state, not fields of a class, because they are shared by tasks that interleave.
- ImageRaces.UploadsLoseVerification: `upload_image` is the store, trigger, claim, persist and mark steps of an in-request worker; reading and validating the files is left out.
- BenchmarkService.Execute: the endless loop around it and its pauses are left out; leasing and executing are steps of the protocol.
- WakeLoop.TriggerIsServed: counts the loop's own steps; that the event loop schedules them is not modelled.
- BenchmarkWorkers.TasksHaveOneHolder: no liveness for tasks in `waiting_for_model`, which `lease_task` does not select again.
- BenchmarkWorkers.AveragesAreInRange: latency totals and the council columns are left out; scores are exact rationals, not floats.
- ReceiptMemory.TeachThenRecall: the endpoint that suggests one category is left out; it reads the same aliases.
- Months.MonthStartIsAdditive: years are unbounded, `date()` raises outside 1..9999.
- StatisticsLaws.SharesAddUp: exact division, where `Decimal` rounds the quotient to 28 digits first.
- CollectionOwnership.ConfinedLinksStayWithinOwners: the start-up backfill that gives ownerless receipts and images to the first administrator, and the deletion of users, are left out.
- Case folding and white space are the ASCII ones; `casefold` of other scripts is not modelled.
- `SequenceMatcher` is any similarity in [0,1] that is 1 exactly on equal strings; the removal uses only the threshold 1.
- Quantities that are not finite numbers, and Pydantic's validation of the result of `reconciled`.
- Which of several receipts of one image is the oldest: the queries for one are answered by any of them, and there is at most one.
- Case-insensitive uniqueness of collection names: there is no database constraint behind the check.
- Names, colours and dates of collections, their totals and detail views.
- HTTP routes, authentication, file moves, thumbnails, LLM transport and prompts, connection pools and SQL text.
