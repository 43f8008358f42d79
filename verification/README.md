# Superior MySQL++: a model and its proofs

Superior MySQL++ is a C++14 wrapper of the MySQL client library. This project models the parts of it
that keep state over time or compute something delicate, and proves what they promise.

**The shared-pointer pool.** A pool keeps resources (connections) behind shared pointers. Users take
them with `get`; a resource-count keeper adds and trims them; a health-care job checks the unused ones;
anyone may clear the pool, erase an item or store a new population id. They share one mutex, but drop and
retake it in the middle of their work, and strong counts and the population id change without it.

- `PoolMachine` is the pool and all its threads as one step machine. A step is one atomic action: taking
  the mutex, one test of one item, one comparison of population ids, one copy of a shared pointer, one
  verdict. `PoolInvariant` states what
  every step keeps, `PoolPreservation*` prove it, and `PoolSafety` and `PoolGenerations` draw the
  conclusions for every run. `PoolRuns` holds concrete runs that show which stronger claims fail, and four
  modules say exactly when they hold: `PoolMisses` (a `get` creates only when there is nothing to hand out),
  `PoolChecks` (nobody uses what is being checked), `PoolRemoval` (an unhealthy verdict finds its item; over
  `PoolMembership`, how resources enter and leave the pool) and `PoolClears` (a clearing or a new
  population id keeps out what was under way). `PoolTrims` is what a trim promises while counts change under
  it, and `PoolVerdicts` that every item the health job locks gets one check and one verdict.
- `SharedPtrPools`, `KeeperCycle` and `HealthCare` are the same code as methods of an object, run without
  interference, proved against functions on the pool (`PoolSpec`). `PoolSections` connects the two: an
  uninterrupted scan of the machine computes what the method computes.
- `MasterSlave` and `ConcatIteration` are the collection of one master and many slave pools and the
  iterator over it; `DnsManagement` clears a pool when addresses change; `BoundedSleep` is how all jobs
  sleep between cycles.

**Transactions and queries.** `Unwinding` is a small language of scopes, throws, handlers, returns and
destructors that run code. Its implementation compares counts of uncaught exceptions; the reference looks
at how scopes are left. `UnwindingAgreement` proves that they agree, `UnwindingResults` states what follows
for transactions and queries, and `QueryObjects` is the query as an object on its connection.

**Results.** `ColumnIndex` finds columns by name, `DecimalText` and `StringBuffers` convert integers,
`FieldCompatibility` and `ResultValidation` compare result columns with the buffers bound for them.

Conventions: the outside world (factories, health checks, DNS, clocks, the server, the scheduler) is
carried by parameters, so every theorem is about all its answers. Resources are numbers given out in the
order their creations are requested; factories are taken to yield new, non-null resources. Erasing, by an
unhealthy verdict or by a caller of `erase`, is a step only when the item is present, which is what the code
needs; a caller may name any pooled resource. Users obtain a resource from `get` or by copying a reference;
they lock no weak reference that they kept, which could give them what `get` has just found unused.

Where the code and its comments or its apparent intent differ, the model follows the code:

- `get` searches from `poolIndex` to the end, then from the beginning, but throws the second result away
  (`include/superior_mysqlpp/shared_ptr_pool/base.hpp:326` compares an iterator with itself).
- The keeper's first removal pass is announced as taking resources that are not validated; it takes
  the available ones, which are valid. The second pass takes any unused ones.
- `clearPool` does not change the population id.
- Result validation does not move past a binding of type `Null`, so it does not end there.
- Reading back the least 32-bit or 64-bit signed integer multiplies it by -1, which overflows.

## Model

| member | source | states |
|---|---|---|
| PoolSafety.PoolIsWellFormed | include/superior_mysqlpp/shared_ptr_pool/base.hpp:311-366 | in every reachable state no resource is pooled twice, and the search index is 0 on an empty pool and a position otherwise unless a trim, which repairs it at its end, holds the mutex; so the assertion of `get` never fails |
| PoolSafety.CountsAreHolders | include/superior_mysqlpp/shared_ptr_pool/base.hpp:260-268 | in every reachable state a strong count is exactly the references held by pool, users, jobs, calls in flight and vectors awaiting destruction |
| PoolSafety.HandOutIsExclusive | include/superior_mysqlpp/shared_ptr_pool/base.hpp:320-337 | whoever interferes between the availability test and the copy, `get` never hands out a resource that a user holds |
| PoolSafety.HandOutsAreRechecked | include/superior_mysqlpp/shared_ptr_pool/base.hpp:329-352 | with invalidation on access, in every run, between any two hand-outs of a resource lies a health check of it that began after the first and passed before the second |
| PoolSafety.WeakLockMeaning | include/superior_mysqlpp/shared_ptr_pool/health_care_job.hpp:130-145 | when the weak lock reads a count of 2, no user holds the resource if and only if the pool, or a reference about to be destroyed, still does |
| PoolSafety.GetLeavesChecked | include/superior_mysqlpp/shared_ptr_pool/base.hpp:318-337 | no step of `get` selects or hands out a resource that only the health job is using |
| PoolSafety.CheckIsExclusive | include/superior_mysqlpp/shared_ptr_pool/health_care_job.hpp:147-154 | over any run during which the health job keeps its reference, a resource that was neither selected nor held by a user stays so |
| PoolChecks.MayMeetUserIff | include/superior_mysqlpp/shared_ptr_pool/health_care_job.hpp:130-154 | a resource that the health job holds and no user does can get a user, in some run during which the job keeps its reference, if and only if a `get` has already selected it |
| PoolChecks.WeakLockToVerdict | include/superior_mysqlpp/shared_ptr_pool/health_care_job.hpp:133-154 | after a weak lock that reads a count of 2, a user can hold the resource during the check if and only if the other reference was a user's and not the pool's or one about to be destroyed, or a `get` had selected the resource before |
| PoolMembership.PooledStep | include/superior_mysqlpp/shared_ptr_pool/base.hpp:225-449 | which steps bring a resource into the pool and which take it out, for every step of every thread, the public `erase` included |
| PoolMembership.StaysOut | include/superior_mysqlpp/shared_ptr_pool/base.hpp:340-362 | a resource that was published and has left the pool never comes back |
| PoolRemoval.PooledAfter | include/superior_mysqlpp/shared_ptr_pool/health_care_job.hpp:147-172 | over any run that keeps the job's reference, a resource is pooled at the end if and only if it was at the start, the pool was not cleared, no caller erased the resource and no verdict did |
| PoolRemoval.EraseFindsItsItem | include/superior_mysqlpp/shared_ptr_pool/base.hpp:225-229 | take any time since the job took its reference: an unhealthy verdict later finds its item if and only if the item was pooled then and nobody has cleared the pool or erased the resource since; an item that a running trim had already removed was not pooled |
| PoolTrims.TrimUnderInterference | include/superior_mysqlpp/shared_ptr_pool/resource_count_keeper.hpp:154-200 | a trim interleaved with anything keeps the order, removes no more than it was to and nothing that a user holds at the end; if it removes fewer, every item left was in use when the second pass tested it; if it removes an invalid item, every item left was not available when the first pass tested it |
| PoolVerdicts.OneCheckOneVerdict | include/superior_mysqlpp/shared_ptr_pool/health_care_job.hpp:147-216 | a locked item leaves its batch in one of two ways, whatever goes on besides: at the release, after exactly one check and one verdict, or because starting a check failed, before any verdict of the batch |
| PoolMisses.MissMeansNoneIff | include/superior_mysqlpp/shared_ptr_pool/base.hpp:313-327 | a search interleaved with anything that ends with a miss found every item from the index on unavailable at its own test; nothing is available then if and only if nothing before the index is, nor anything released after its test |
| PoolMisses.QuietMissMeansNoneIff | include/superior_mysqlpp/shared_ptr_pool/base.hpp:313-327 | if no reference to a pooled resource is destroyed during the search, a miss means that nothing is available if and only if nothing before the index is |
| PoolPreservation.StepKeeps | include/superior_mysqlpp/shared_ptr_pool/base.hpp:225-449 | every step of every thread keeps the whole invariant |
| PoolPreservation.ReachableInv | include/superior_mysqlpp/shared_ptr_pool/base.hpp:225-449 | the invariant holds in every reachable state |
| PoolPreservationGet.GetKeeps | include/superior_mysqlpp/shared_ptr_pool/base.hpp:311-366 | locking, testing, taking, missing, requesting, receiving, comparing ids and appending keep the invariant |
| PoolPreservationKeeper.KeeperKeeps | include/superior_mysqlpp/shared_ptr_pool/resource_count_keeper.hpp:88-206 | observing, requesting, collecting, comparing ids, adding and trimming keep the invariant |
| PoolPreservationHealth.HealthKeeps | include/superior_mysqlpp/shared_ptr_pool/health_care_job.hpp:97-216 | snapshot, weak locks, checks, verdicts and releases keep the invariant |
| PoolPreservationHealth.JudgeSettles | include/superior_mysqlpp/shared_ptr_pool/health_care_job.hpp:161-188 | after a verdict every valid item has passed a check since it was last handed out: only an item whose stale flag was invalid is made valid again |
| PoolPreservation.CallerKeeps | include/superior_mysqlpp/shared_ptr_pool/base.hpp:379-449 | erasing, clearing, storing population ids, users copying and releasing, and destroying what was given up keep the invariant |
| PoolGenerations.GenerationSafety | include/superior_mysqlpp/shared_ptr_pool/base.hpp:340-362 | after storing a never-used id and then clearing, with any steps before, between and after that bring no earlier id back, every pooled resource was requested after the store, even though ids may be stored between a comparison and the append it allows |
| PoolGenerations.PoolSinceStep | include/superior_mysqlpp/shared_ptr_pool/resource_count_keeper.hpp:129-143 | once no earlier id is current and nobody is about to act on a comparison made before, no step pools a creation that was requested before |
| PoolGenerations.RenewedStep | include/superior_mysqlpp/shared_ptr_pool/base.hpp:249-257 | every creation under way either carries an earlier id or was requested since, and none from before is about to be pooled; steps keep it so |
| PoolRuns.GetMayCreateNeedlessly | include/superior_mysqlpp/shared_ptr_pool/base.hpp:323-327 | a run in which `get` goes on to create although an item before the index is available |
| PoolRuns.GetMayMissWhatIsReleased | include/superior_mysqlpp/shared_ptr_pool/base.hpp:318-321 | another, with the index at 0, in which the item was released after its own test |
| PoolRuns.PlainPoolsDoNotRecheck | include/superior_mysqlpp/shared_ptr_pool/base.hpp:332-335 | in every configuration without invalidation a resource can be handed out twice with no check between |
| PoolRuns.RecheckedIff | include/superior_mysqlpp/shared_ptr_pool/base.hpp:332-335 | in every run a check lies between any two hand-outs of one resource if and only if access invalidates |
| PoolRuns.UserMayMeetCheck | include/superior_mysqlpp/shared_ptr_pool/health_care_job.hpp:133-147 | a `get` that tested an item before the weak lock can hand it out while it is checked |
| PoolRuns.EraseMayFindNothing | include/superior_mysqlpp/shared_ptr_pool/base.hpp:225-229 | a check can end unhealthy after its item has left the pool, by a clearing or by a caller's `erase`, when erasing has nothing to erase |
| PoolRuns.ClearAloneIsNotEnough | include/superior_mysqlpp/shared_ptr_pool/base.hpp:441-449 | a creation requested before a clear can be pooled after it |
| PoolRuns.StoreAloneIsNotEnough | include/superior_mysqlpp/shared_ptr_pool/base.hpp:348-352 | a creation requested before a new id is stored can be pooled after it without a clearing |
| PoolRuns.RestoringAnIdLetsOldOnesIn | include/superior_mysqlpp/shared_ptr_pool/base.hpp:254-257 | so can one requested before a new id, if the earlier id is stored again |
| PoolClears.ClearKeepsOutIff | include/superior_mysqlpp/shared_ptr_pool/base.hpp:340-362 | a creation under way at a clearing, asked for by `get` or the keeper, can be pooled afterwards without its id being stored again if and only if it carries the current population id |
| PoolClears.RestoringLetsIn | include/superior_mysqlpp/shared_ptr_pool/resource_count_keeper.hpp:129-143 | if its id is stored again after the clearing it always can |
| PoolClears.StoreKeepsOutIff | include/superior_mysqlpp/shared_ptr_pool/base.hpp:254-257 | when a never-used id is stored, a creation under way can be pooled afterwards without its own id being stored again if and only if its thread has compared the ids before and is about to pool it |
| PoolSpec.FirstAvailable | include/superior_mysqlpp/shared_ptr_pool/base.hpp:318-321 | the first available position from the index on, or the size when there is none |
| PoolSpec.TrimMeaning | include/superior_mysqlpp/shared_ptr_pool/resource_count_keeper.hpp:154-195 | while counts stand still: two passes with one countdown keep the order, lose nothing, drop min(count, unused) items, no used one, and an invalid one only when no available one is left |
| PoolSpec.TrimAvailable | include/superior_mysqlpp/shared_ptr_pool/resource_count_keeper.hpp:159-176 | while counts stand still: asked for no more than there are available items, a trim takes exactly that many of those |
| PoolSections.SearchFinds | include/superior_mysqlpp/shared_ptr_pool/base.hpp:318-321 | the machine's tests, uninterrupted, select what the search function finds |
| PoolSections.SearchTests | include/superior_mysqlpp/shared_ptr_pool/base.hpp:318-321 | and go on, to the end if need be, while there is nothing available |
| PoolSections.IterateRuns | include/superior_mysqlpp/shared_ptr_pool/base.hpp:311-366 | such an iteration of one step is a run of the machine |
| PoolSections.TrimSection | include/superior_mysqlpp/shared_ptr_pool/resource_count_keeper.hpp:154-199 | the machine's two passes, uninterrupted, leave the pool, index and dropped items of the trim function |
| KeeperCycle.CycleKeepsShape | include/superior_mysqlpp/shared_ptr_pool/resource_count_keeper.hpp:84-212 | a keeper cycle leaves the index valid and the resources distinct and counted |
| KeeperCycle.CycleKeepsUsed | include/superior_mysqlpp/shared_ptr_pool/resource_count_keeper.hpp:84-212 | used items survive a keeper cycle in their order |
| KeeperCycle.CycleAvailable | include/superior_mysqlpp/shared_ptr_pool/resource_count_keeper.hpp:94-147 | below the minimum the available items grow by exactly the successful creations, above the maximum they are cut to it |
| KeeperCycle.CycleConverges | include/superior_mysqlpp/shared_ptr_pool/resource_count_keeper.hpp:84-212 | when all creations succeed, a second cycle changes nothing if and only if minSpare <= maxSpare, and then the available items are within the bounds |
| KeeperCycle.ErasingKeepsShape | include/superior_mysqlpp/shared_ptr_pool/base.hpp:225-234 | erasing a present item leaves the shape intact and the resource out of the pool |
| SharedPtrPools.SharedPtrPool.GetSearch | include/superior_mysqlpp/shared_ptr_pool/base.hpp:313-337 | takes the first available item at or after the index, moves the index there and, with invalidation, clears its flag; otherwise changes nothing |
| SharedPtrPools.SharedPtrPool.GetAppend | include/superior_mysqlpp/shared_ptr_pool/base.hpp:346-364 | pools the new resource at the end, under the index, if and only if the population is the one read before |
| SharedPtrPools.SharedPtrPool.Get | include/superior_mysqlpp/shared_ptr_pool/base.hpp:311-366 | hands out the first available item from the index on or a new one; the index is at the result, which is used and, with invalidation, invalid |
| SharedPtrPools.SharedPtrPool.EraseUnsafe | include/superior_mysqlpp/shared_ptr_pool/base.hpp:225-234 | removes exactly the one item, keeps the order of the rest and repairs the index |
| SharedPtrPools.SharedPtrPool.Revalidate | include/superior_mysqlpp/shared_ptr_pool/health_care_job.hpp:179-192 | makes the item with the resource valid, if it is still pooled, and nothing else |
| SharedPtrPools.SharedPtrPool.ClearPool | include/superior_mysqlpp/shared_ptr_pool/base.hpp:441-449 | empties the pool, resets the index and hands over the old items; the population stays |
| SharedPtrPools.SharedPtrPool.AvailableCount | include/superior_mysqlpp/shared_ptr_pool/base.hpp:271-280 | counts the available items |
| SharedPtrPools.SharedPtrPool.RemovePass | include/superior_mysqlpp/shared_ptr_pool/resource_count_keeper.hpp:159-189 | compacting in place leaves what the pass keeps in front, with the countdown left and the references given up |
| SharedPtrPools.SharedPtrPool.TrimPool | include/superior_mysqlpp/shared_ptr_pool/resource_count_keeper.hpp:145-208 | the pool, index and counts after both passes are those of the trim function |
| SharedPtrPools.SharedPtrPool.AddSpare | include/superior_mysqlpp/shared_ptr_pool/resource_count_keeper.hpp:108-143 | the successful creations are pooled in order, or destroyed if the population changed |
| SharedPtrPools.SharedPtrPool.KeeperCycle | include/superior_mysqlpp/shared_ptr_pool/resource_count_keeper.hpp:84-212 | one cycle is the cycle function |
| SharedPtrPools.SharedPtrPool.TwoCycles | include/superior_mysqlpp/shared_ptr_pool/resource_count_keeper.hpp:84-212 | two cycles leave the pool where one does, within the bounds, if these are the right way round |
| HealthCare.Cycle | include/superior_mysqlpp/shared_ptr_pool/health_care_job.hpp:97-216 | the batches are the snapshot in order, all but the last full; every locked item is checked exactly once; afterwards unhealthy items and their references are gone, healthy ones valid, all others as before, and the index is in range |
| HealthCare.RunBatch | include/superior_mysqlpp/shared_ptr_pool/health_care_job.hpp:130-207 | locks the lockable items of the batch and applies their verdicts |
| HealthCare.OneMoreChecked | include/superior_mysqlpp/shared_ptr_pool/health_care_job.hpp:157-198 | one more verdict erases exactly the judged item, makes exactly it valid, or changes nothing |
| HealthCare.UncheckedStays | include/superior_mysqlpp/shared_ptr_pool/health_care_job.hpp:157-192 | an item not judged yet is still in the pool at one place, and its verdict changes that place only |
| HealthCare.BatchCloses | include/superior_mysqlpp/shared_ptr_pool/health_care_job.hpp:121-128 | closing at a multiple of the batch size or at the end leaves only full batches but perhaps the last |
| UnwindingAgreement.RunIsIdeal | include/superior_mysqlpp/uncaught_exception_counter.hpp:20-34 | for every program, deciding by saved counts of uncaught exceptions gives the log and outcome that looking at how each scope is left gives |
| UnwindingAgreement.ObjectsStay | include/superior_mysqlpp/uncaught_exception_counter.hpp:26-28 | a program leaves the objects in scope with the counts they saved |
| UnwindingResults.CountAfter | include/superior_mysqlpp/uncaught_exception_counter.hpp:11-18 | a program raises the count by one if it ends in an exception and otherwise not at all |
| UnwindingResults.TransactionDecides | include/superior_mysqlpp/transaction.hpp:133-159 | a transaction rolls back exactly when an exception leaves its scope and commits otherwise, however many exceptions were unwinding; a failed ROLLBACK goes unnoticed, a failed COMMIT throws, neither terminates |
| UnwindingResults.TransactionsNest | include/superior_mysqlpp/transaction.hpp:79-159 | a program that is not terminated ends every transaction it starts exactly once, innermost first |
| UnwindingResults.CommitsWhileUnwinding | include/superior_mysqlpp/transaction.hpp:133-159 | a transaction in a destructor run by an exception commits when its own scope ends well |
| UnwindingResults.QueryDecides | include/superior_mysqlpp/query.hpp:75-90 | an executed query is checked for unread results exactly when no exception leaves its scope |
| UnwindingResults.MovedQueryDecides | include/superior_mysqlpp/query.hpp:59-69 | a moved query is checked by the count of the query it was moved from |
| UnwindingResults.MovedQueryGoesUnchecked | include/superior_mysqlpp/query.hpp:59-90 | once an exception thrown since that construction is uncaught, a moved query is not checked even if its own scope ends well |
| UnwindingResults.OnlyTheSurvivorChecks | include/superior_mysqlpp/query.hpp:59-69 | a query that was moved from and not executed again is never checked |
| UnwindingResults.ReturnedQueryIsLocal | include/superior_mysqlpp/query.hpp:59-69 | a query returned from a function, whether or not the move is left out, cannot be told from one constructed where it is returned to: it is checked once, by the count saved at its construction |
| QueryObjects.Query.Move | include/superior_mysqlpp/query.hpp:59-69 | the new object is the old one, and the old one counts as not executed |
| QueryObjects.Query.Execute | include/superior_mysqlpp/query.hpp:138-142 | sends the text; the query counts as executed only if the server accepts it |
| QueryObjects.Query.HasMoreResults | include/superior_mysqlpp/query.hpp:144-152 | is refused before execution; afterwards says no exactly when the next request would report the end, so that yes announces a result set or an error |
| QueryObjects.Query.NextResult | include/superior_mysqlpp/query.hpp:154-164 | fails before execution; then moves on by one result set, reports the end, or throws the server's error |
| QueryObjects.Query.Drain | include/superior_mysqlpp/transaction.hpp:109-110 | leaves nothing unread, and succeeds exactly when no result set is an error |
| QueryObjects.Query.Destroy | include/superior_mysqlpp/query.hpp:75-90 | throws exactly when no newer exception is uncaught, the query was executed and results are unread, as in the scope language |
| QueryObjects.StartTransaction | include/superior_mysqlpp/transaction.hpp:79-126 | sends one command with the chosen level and characteristics; with a level, its two statements leave nothing unread and fail exactly when either does |
| ColumnIndex.LowerBoundDecides | include/superior_mysqlpp/query_result.hpp:101-114 | in the sorted index the first mapping not less than the name carries the least column of that name, or the name is absent |
| ColumnIndex.FirstIndex | include/superior_mysqlpp/query_result.hpp:97-115 | linear search: the least column with the name, none exactly when it is absent |
| ColumnIndex.Sort | include/superior_mysqlpp/query_result.hpp:59-59 | the mappings by name and then by column, none lost |
| ColumnIndex.LowerBound | include/superior_mysqlpp/query_result.hpp:103-105 | halving finds the position that divides the smaller names from the others |
| ColumnIndex.QueryResult.GetColumnNameMappings | include/superior_mysqlpp/query_result.hpp:44-63 | builds the complete sorted index on first use and returns the same one later |
| ColumnIndex.QueryResult.GetColumnIndex | include/superior_mysqlpp/query_result.hpp:97-115 | with or without a cached index, duplicates included, the answer is that of the linear search |
| DecimalText.AccumulateIsPositional | include/superior_mysqlpp/converters/to_integer.hpp:57-104 | the unrolled parser adds digits times weights modulo the width; with validation it fails exactly when some character is no digit |
| DecimalText.PositionalIsHorner | include/superior_mysqlpp/converters/to_integer.hpp:57-71 | the positional sum is the number read from left to right |
| DecimalText.WeightFits | include/superior_mysqlpp/converters/to_integer.hpp:59-59 | no weight of an accepted length overflows its width |
| DecimalText.UnsignedMeaning | include/superior_mysqlpp/converters/to_integer.hpp:270-339 | which lengths and characters are refused, and that the value is the number modulo the width, exact if and only if it is in range |
| DecimalText.SignedParsing | include/superior_mysqlpp/converters/to_integer.hpp:382-402 | the outcome of signed conversion for every text and width, the undefined case included |
| DecimalText.SignedExactness | include/superior_mysqlpp/converters/to_integer.hpp:382-402 | a signed number is read exactly if and only if it is in range and not the least of a wider type |
| DecimalText.UnsignedRoundTrip | include/superior_mysqlpp/converters.hpp:71-75 | reading what was printed gives every unsigned number back, at every width |
| DecimalText.SignedRoundTrip | include/superior_mysqlpp/converters.hpp:71-75 | reading what was printed gives a signed number back if and only if it is not the least 32-bit or 64-bit one |
| DecimalText.PrintedBack | include/superior_mysqlpp/converters.hpp:71-75 | printing what was read gives back every text of digits without a leading zero |
| StringBuffers.StringData.FromNumber | include/superior_mysqlpp/types/string_data.hpp:43-54 | the buffer holds the printed number; construction fails exactly when that is too long |
| StringBuffers.StringData.To | include/superior_mysqlpp/types/string_data.hpp:61-65 | refuses exactly the lengths no number of the type can have, never for a character; what it returns is in the range of the type, and is the number the text stands for if and only if that is, the least wide number with its sign excepted |
| StringBuffers.ThroughBuffer | include/superior_mysqlpp/types/string_data.hpp:43-65 | the round trip through a buffer |
| FieldCompatibility.PromotionMeaning | include/superior_mysqlpp/prepared_statements/validate_metadata_modes.hpp:216-443 | between numeric types a promotion is allowed if and only if every whole value of the source is exactly held by the target |
| FieldCompatibility.WitnessShows | include/superior_mysqlpp/prepared_statements/validate_metadata_modes.hpp:216-443 | for every refused promotion a concrete value that the source type holds and the target type does not |
| FieldCompatibility.ModesNest | include/superior_mysqlpp/prepared_statements/validate_metadata_modes.hpp:186-536 | a laxer mode accepts what a stricter one does, except short integers into years, which only the same-representation mode accepts |
| ResultValidation.Statement.ValidateResultMetadata | include/superior_mysqlpp/prepared_statements/prepared_statement_base.hpp:345-475 | returns the outcome and logs the warnings that the declarative comparison gives |
| ResultValidation.Statement.ValidatePair | include/superior_mysqlpp/prepared_statements/prepared_statement_base.hpp:362-425 | the fault and the warnings of one pair |
| ResultValidation.PassesIff | include/superior_mysqlpp/prepared_statements/prepared_statement_base.hpp:345-475 | passes if and only if both modes are off, or the lists are equally long and every pair is bound, compatible and null-safe |
| ResultValidation.FailsAtLeast | include/superior_mysqlpp/prepared_statements/prepared_statement_base.hpp:345-431 | fails at an index if and only if a mode is on and it is the least one whose pair is not accepted |
| ResultValidation.WarnedPairs | include/superior_mysqlpp/prepared_statements/prepared_statement_base.hpp:393-425 | the whole log: each warning at most once; about types for exactly the pairs reached that pass the validation mode and miss the warning mode, the failing one included; about null values for exactly the pairs reached and accepted that may lose them |
| ResultValidation.EndsIff | include/superior_mysqlpp/prepared_statements/prepared_statement_base.hpp:345-475 | validation ends if and only if no null binding is reached: both modes are off, or every bound binding of type `Null` comes after a pair that is not accepted or after the shorter list |
| ConcatIteration.EqualsMeansSamePlace | include/superior_mysqlpp/types/concat_iterator.hpp:101-149 | iterators are equal if and only if they are at the same place, except the end of a first and the beginning of a second range when neither is empty |
| ConcatIteration.SteppedEquals | include/superior_mysqlpp/types/concat_iterator.hpp:101-149 | iterators reached by stepping are equal if and only if they are at the same place |
| ConcatIteration.EndIsReached | include/superior_mysqlpp/types/concat_iterator.hpp:70-87 | stepping from the beginning equals the end first after as many steps as there are elements, or one more if only the first range is empty |
| ConcatIteration.ConcatIterator.Increment | include/superior_mysqlpp/types/concat_iterator.hpp:70-87 | moves to the next place, over to the second range at the end of the first |
| ConcatIteration.ConcatIterator.Element | include/superior_mysqlpp/types/concat_iterator.hpp:89-99 | reads the element of the concatenation at that place |
| ConcatIteration.Distance | include/superior_mysqlpp/types/concat_iterator.hpp:167-178 | the least number of steps after which the iterators are equal |
| ConcatIteration.DistanceBeginEnd | include/superior_mysqlpp/types/concat_iterator.hpp:167-178 | the sum of the lengths if and only if the first range is not empty or the second is |
| ConcatIteration.Visit | include/superior_mysqlpp/types/concat_iterator.hpp:70-99 | iterating visits the first range and then the second |
| MasterSlave.MasterSlavePools.AddSlavePool | include/superior_mysqlpp/master_slave_connection_pools.hpp:88-98 | adds a slave, or fails and changes nothing when the id is taken |
| MasterSlave.MasterSlavePools.EraseSlavePool | include/superior_mysqlpp/master_slave_connection_pools.hpp:112-124 | removes the slave, or fails when there is none |
| MasterSlave.MasterSlavePools.GetSlavePool | include/superior_mysqlpp/master_slave_connection_pools.hpp:126-136 | the first pool in iteration order that is not the master, or the master |
| MasterSlave.MasterSlavePools.GetSlaveOrMasterPool | include/superior_mysqlpp/master_slave_connection_pools.hpp:163-175 | the pool that iteration reaches after the master and the slaves with smaller ids, or for an unknown id the first one, the master |
| MasterSlave.MasterSlavePools.VisitAll | include/superior_mysqlpp/master_slave_connection_pools.hpp:237-253 | iteration visits the master once and then every slave by id, `size()` pools in all |
| MasterSlave.MasterSlavePools.DistanceOfAll | include/superior_mysqlpp/master_slave_connection_pools.hpp:237-286 | `size()` is the distance from begin to end |
| MasterSlave.InOrder | include/superior_mysqlpp/master_slave_connection_pools.hpp:33-33 | the keys in increasing order, each once |
| MasterSlave.OrderIsUnique | include/superior_mysqlpp/master_slave_connection_pools.hpp:33-33 | no other list of the keys is increasing |
| MasterSlave.SlavesWithNew | include/superior_mysqlpp/master_slave_connection_pools.hpp:88-98 | a new slave takes its place in the iteration and the others keep theirs |
| MasterSlave.SlaveAfter | include/superior_mysqlpp/master_slave_connection_pools.hpp:88-124 | after any history an id stands for the pool of the first addition since it was last erased, and is absent if there is none |
| MasterSlave.Replay | include/superior_mysqlpp/master_slave_connection_pools.hpp:88-124 | making any history of calls on an object leaves the master and slaves of the history function |
| MasterSlave.VisitAfter | include/superior_mysqlpp/master_slave_connection_pools.hpp:88-124 | after any history, iteration visits the master set last and then, by id, for every id added since it was last erased, the pool of the first such addition |
| MasterSlave.LookUpAfter | include/superior_mysqlpp/master_slave_connection_pools.hpp:145-155 | after any history, looking an id up finds the pool of its first addition since it was last erased, and fails if there is none |
| DnsManagement.DnsAwarePool.Job | include/superior_mysqlpp/dnsa_connection_pool.hpp:129-173 | over a whole run the pool is cleared at exactly the cycles that bring a change |
| DnsManagement.ChangesUpTo | include/superior_mysqlpp/dnsa_connection_pool.hpp:142-153 | those cycles: resolution succeeded with other addresses than the last success, each cycle once, in order |
| DnsManagement.FailuresDoNotMatter | include/superior_mysqlpp/dnsa_connection_pool.hpp:155-167 | the addresses cleared for are the successful resolutions without repeats, wherever failures fall |
| BoundedSleep.SleepInParts | include/superior_mysqlpp/shared_ptr_pool/sleep_in_parts.hpp:23-48 | ends; sleeps in whole parts but perhaps the last, at most time / part rounded up times and at most `time` in all, only while the condition holds, and says why it stopped |
| BoundedSleep.SleepsAreFew | include/superior_mysqlpp/shared_ptr_pool/sleep_in_parts.hpp:31-47 | sleeps of whole parts but the last that fit into a time are no more than that time divided by the part, rounded up |

## Left out

- Connecting, escaping, fetching rows and everything else the MySQL C API does; queries are oracles.
- Loggers, thread creation and joining, memory ordering, `std::async`; a job is the steps it takes. A health
  check that throws when it is started is a step of the machine; an exception thrown by a logger is not.
- Moving and destroying a pool, `poolFullState` and `countUnhealthyResources`, which only report.
- `getPoolSnapshotUnsafe`, which copies into an empty vector and is not used by the jobs.
- Addresses: resources are identities, so one object is never mistaken for another at its old address.
- In the step machine a critical section, or the part of one after the last read of a strong count or of the
  population id, is one step: nobody else can look at the pool in between.
- In the step machine references that a thread gives up (trimmed or cleared items, a released batch, a
  refused weak lock, discarded creations) may be destroyed one by one at any time from then on. The code
  destroys some of them before it goes on; no run of the code is left out, and the theorems are about more.
- `getUnpooled`, whose resources never meet the pool.
- Bounds of the keeper and the invalidation flag are constant during a run of the machine.
- PoolSpec.TrimMeaning: is about counts that stand still, as it specifies the uninterrupted methods; under interference an item can become
  available or used between its two tests, and what then holds is in `PoolTrims`.
- PoolSpec.TrimAvailable: likewise.
- The health cycle as a method fixes beforehand which weak references can be locked; the machine does not.
- OnlyTheSurvivorChecks: is about a move within the scope of the source; a query that leaves the scope it was
  constructed in by being returned is in `ReturnedQueryIsLocal`.
- Copying and moving a transaction (`include/superior_mysqlpp/transaction.hpp:128-131` defaults both), after
  which several objects would end the same one; other objects that outlive the scope they were constructed
  in; loops and branches, of which a program is one path.
- Building query text (`operator<<`, quoting, escaping) and `store`, `use` and row iteration.
- Floating-point conversion, which is the C library's; conversion of `bool` and character types.
- PromotionMeaning: is about whole numbers and leaves exponents unbounded, because the conversion of
  fractions and the range of exponents never decide a promotion of the table.
- Type codes of result columns that are no field type, and the text of error messages.
- Result metadata caching, binding initialisation templates, `Nullable`, dates and times, type traits.
- Comparing concatenating iterators over different ranges.
- Increment: stepping from the end of an empty first range is modelled as the code's comparison treats
  it, although the C++ language gives that pointer no meaning.
- Starting and stopping the DNS job, and the resolution itself; a run is given by how resolutions end.
- SleepInParts: the clock is taken never to go back, and a sleep to last at least as long as asked.
