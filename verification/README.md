# A verified model of an approximate-match search engine

The engine keeps a set of active queries and answers a stream of documents. A query is a set of
words with a match type (exact, Hamming, edit distance) and a threshold; the answer for a document
is the ascending list of the active queries all of whose words match some word of the document.
The code reaches this answer through BK-trees on two metrics, skip lists, open-addressing hash
tables, counters per threshold, tables of matched words and a pool of threads. The project models
these layers and proves that together they give exactly the naive answer, for every run and every
interleaving of the client, the queues and the workers.

| file | what it holds |
|---|---|
| `Distances.dfy` | edit distance with swap, stripping and one-row table; Hamming distance; both are metrics |
| `Vector.dfy` | the growable array behind traversal stacks and the worker pool |
| `SkipList.dfy` | the skip list on the heap, for every choice of tower heights |
| `BkTree.dfy` | the BK-tree on the heap, built from the three files above |
| `HashTable.dfy` | linear probing with growth refines a first-write-wins map |
| `LinkedList.dfy` | the doubly linked list behind queues and result lists |
| `Parser.dfy` | `string_view::split` and the tokenizing loop |
| `Scheduler.dfy` | workers, queues and the barrier as a transition system |
| `ResultQueue.dfy` | the queue of finished documents, with several producers and one consumer |
| `EngineModel.dfy` | the engine as a transition system; every answer of every run is the naive one |
| `EndTwice.dfy` | what ending a query twice costs |
| `System.dfy` | engine, scheduler and client together: every interleaving is a run of the engine, and every schedule ends |
| `History.dfy` | what the calls and results of the client determine about the queues, in every interleaving |
| `Schedule.dfy` | schedules: how a worker on its own runs what waits for it |
| `Replay.dfy` | a second run with the same calls in which a document has not been begun |
| `LateStart.dfy` | exactly when a query started too late enters an answer, by the calls and results of the client |
| `Engine.dfy` | the engine as a class over real BK-trees, tied step by step to the transition system |

How the layers meet: `Engine` calls the methods of `BkTree`, which call those of `SkipList`,
`Vector` and `Distances`; each `Engine` method extends a ghost trace of `EngineModel` events, and
`Engine.GetNextAvailRes` promises the naive answer for that trace. `EngineModel` lets insertions
and documents run in any order and lets a barrier pass when none is left. `Systems` puts it
together with the workers, queues and barrier of `Scheduling` and a client that submits one job
after the other: a table changes only when the worker with the job at the head of its queue gets to
it, and a call goes past its barrier only when `wait_all_finish` returns. `SystemRunsEngine` says
that whatever happens to the tables in any such interleaving is a run of `EngineModel`, so every
answer is naive (`SystemAnswersAreNaive`); conversely no interleaving is left out
(`EngineIsOffered`, `SchedulerIsOffered`, `ClientIsOffered`); and under every schedule all calls
return and all jobs run (`EveryScheduleSettles`).

What the definitions rest on: distances are counted in edits and mismatching positions
(`WordMatchIff`, `NearIff`, `AnswerNamesIff`), round robin in numbers (`TurnIs`,
`BarrierInRounds`), and the order of queues by the events of the run alone (`ResultsInOrder`,
`AnswersInOrder`, `CallsAreTaken`).

What the client promises (`EngineModel.Disciplined`, and in terms of its own calls and the answers
it has got `ClientKeeps`): identifiers are not reused; texts are C strings that `parse_string`
splits into words of 4 to 31 characters, at least one; document words and the words of Hamming
queries have at most 30; a query is started only when it matches no document whose answer is
outstanding, which the driver ensures by fetching all results first. The model says what happens
otherwise:

* The header allows words of 31 characters, but there are only 27 Hamming trees, for the lengths
  4 to 30 (`AllowedWordHasTreeIff`).
* The header allows any text of words and spaces. `parse_string` returns the words of a text
  exactly when the text has no leading or doubled space before a word and does not end in a
  single space (`TokensAreWordsIff`).
* A query started while a document is matched can enter the answer of that document, against
  `include/core.h:194-195`. `LateStartEntersIff` gives the exact condition in terms of what the
  client has called and got: some interleaving names the query if and only if the result of the
  document is outstanding, no call since has waited for all jobs, the query matches the document,
  and none of its insertions goes, round robin, to the worker of the document (`ApartIff` counts
  when that is). Where a worker had
  got to when the query was started does not matter. So it happens with two or more threads
  (`UndrainedStartCanLeak`) and never with one (`OneThreadNeverLeaks`).
* `GetNextAvailRes` never returns the promised error (`include/core.h:216-218`): with no further
  result, a call returns if and only if a result is in the queue (`CallReturnsIff`).
* Ending a query twice takes it from its counter twice (`EndKeepsCountersIff`). The hits of the
  other queries of that type and distance are then lost, exactly if one is left
  (`EndTwiceDropsHitsIff`, `EndTwiceCanLose`).
* `vector` writes out of bounds unless it starts with a capacity of two
  (`PushesAreInBoundsIffRoomForTwo`).
* `hash_table::remove` can make other keys unreachable (`RemoveIsSafeIff`); the engine does not
  call it.
* A value that a skip list rejects stays in its `data_list`.

## Model

| member | source | states |
|---|---|---|
| Distances.LevIsLeast | src/lib/distances.cpp:36-80 | no script of single-character inserts, deletes and replacements from a to b is shorter than the distance |
| Distances.LevIsReached | src/lib/distances.cpp:36-80 | a script of exactly that length exists |
| Distances.LevWithinIff | src/lib/distances.cpp:36-80 | the distance is at most k iff some script of at most k edits turns one word into the other |
| Distances.LevCancelFirst | src/lib/distances.cpp:47-53 | a common first character does not change the minimum |
| Distances.LevCancelLast | src/lib/distances.cpp:54-58 | a common last character does not change the minimum |
| Distances.LevStripped | src/lib/distances.cpp:47-58 | stripping a common prefix and suffix leaves the distance of the middles |
| Distances.LevSymmetric | src/lib/distances.cpp:42-45 | swapping the arguments does not change the distance |
| Distances.LevZero | src/lib/distances.cpp:36-80 | distance zero only between equal words |
| Distances.LevTriangle | src/lib/distances.cpp:36-80 | triangle inequality of the edit distance, over all words |
| Distances.LevCell | src/lib/distances.cpp:71-75 | the cell computed from sub, del and ins is the distance of the two prefixes |
| Distances.EditDistance | src/lib/distances.cpp:36-80 | with swap, stripping and early return the result is the distance, for words within the 62-cell buffer |
| Distances.EditTable | src/lib/distances.cpp:64-79 | the rows of the one-row table: the last cell is the distance |
| Distances.EditRow | src/lib/distances.cpp:68-76 | one round turns the row of distances for i-1 characters into that for i |
| Distances.HamCountsMismatches | src/lib/distances.cpp:15-22 | the Hamming distance is the number of positions where the words differ |
| Distances.HamMetric | src/lib/distances.cpp:8-23 | zero iff equal, symmetric, triangle inequality on words of one length |
| Distances.LevAtMostHam | src/lib/distances.cpp:8-80 | on words of one length the edit distance is at most the Hamming distance |
| Distances.HammingDistance | src/lib/distances.cpp:8-23 | the Hamming distance, or the error for different lengths and only then |
| Vectors.GrowthKeepsRoom | include/qs/vector.hpp:22-35 | starting from capacity two, a slot is free after any number of pushes |
| Vectors.PushesAreInBoundsIffRoomForTwo | include/qs/vector.hpp:22-35 | every push writes inside the storage iff the initial capacity is at least two |
| Vectors.WorkersNeverMove | src/lib/scheduler.cpp:13-23 | the worker vector never grows while threads hold the addresses of workers |
| Vectors.Vector.Resize | include/qs/vector.hpp:22-29 | storage one and a half times as long, same content, a slot free |
| Vectors.Vector.Push | include/qs/vector.hpp:98-108 | the element comes last, after growth if the vector was one short of full |
| Vectors.Vector.Set | include/qs/vector.hpp:110-133 | out of bounds is reported, an index below the size is overwritten, any other pushes |
| Vectors.Vector.At | include/qs/vector.hpp:140-146 | the element, or the error at or past the size |
| SkipLists.SortedInsertPresent | include/qs/skip_list.hpp:102-104 | inserting a present key changes nothing |
| SkipLists.SortedInsertAbsent | include/qs/skip_list.hpp:118-126 | inserting an absent key keeps the order and adds exactly this pair |
| SkipLists.LevelAfterInsert | include/qs/skip_list.hpp:61-80 | after the pointer updates a level is again strictly sorted, with prev and next mutually inverse |
| SkipLists.TowerGrows | include/qs/skip_list.hpp:82-86 | after linking bottom and top, each level stands on the one below with the same datum |
| SkipLists.SkipList.LinkPointers | include/qs/skip_list.hpp:64-80 | the new node sits between predecessor and successor, at the head if there is no predecessor |
| SkipLists.SkipList.AddNode | include/qs/skip_list.hpp:63-87 | one node of a tower: its level gets the node at its rank, all level invariants hold again |
| SkipLists.SkipList.InsertWithPath | include/qs/skip_list.hpp:56-88 | for every height, a tower behind the true predecessors keeps all levels and adds the pair |
| SkipLists.SkipList.Gap | include/qs/skip_list.hpp:105-125 | the node where the descent of a level stops is the last one with a smaller key |
| SkipLists.SkipList.InsertNode | include/qs/skip_list.hpp:90-129 | the descent path is the predecessor on every level; the content becomes the sorted insertion |
| SkipLists.SkipList.InsertFirst | include/qs/skip_list.hpp:207-219 | the first tower of an empty list, of any height |
| SkipLists.SkipList.Insert | include/qs/skip_list.hpp:205-245 | sorted insertion of the pair; a present key leaves levels and size alone but joins the data list |
| SkipLists.SkipList.FindNode | include/qs/skip_list.hpp:131-160 | ends, and returns a node with the key iff the key was inserted, for every tower layout |
| SkipLists.SkipList.Find | include/qs/skip_list.hpp:247-250 | the value stored under the key, end() iff there is none |
| SkipLists.SkipList.Iterate | include/qs/skip_list.hpp:296-358 | iteration on the ground level yields the pairs in ascending order of keys, each once |
| BkTrees.DistIsMetric | src/core.cpp:75-92 | the distance function of each tree is a metric on the words of that tree |
| BkTrees.Distance | include/qs/bk_tree.hpp:113-114 | within a tree the distance function never meets words it rejects, and computes the metric |
| BkTrees.DescendantsAreAtLabel | include/qs/bk_tree.hpp:101-133 | every descendant under a child labelled d is at distance exactly d from the parent |
| BkTrees.AddChildKeepsShape | include/qs/bk_tree.hpp:111-129 | linking a new node where the route towards its word ends keeps the tree invariant |
| BkTrees.RouteExtends | include/qs/bk_tree.hpp:113-123 | stepping to the child with the right label stays on the route of the word |
| BkTrees.SelectBreak | include/qs/bk_tree.hpp:158-167 | labels ascend, so leaving the loop above the upper bound loses no child |
| BkTrees.DistIsClose | include/qs/bk_tree.hpp:156-157 | the bounds D - threshold and D + threshold contain the distance from the node to every match |
| BkTrees.TowardsIsSelected | include/qs/bk_tree.hpp:156-166 | the child on the way to a match is pushed: pruning loses nothing |
| BkTrees.TraversalStep | include/qs/bk_tree.hpp:149-168 | one round keeps: no node twice, and every match is visited or below a node on the stack |
| BkTrees.TraversalEnds | include/qs/bk_tree.hpp:149-169 | with an empty stack every match has been visited |
| BkTrees.NearIff | include/qs/bk_tree.hpp:149-155 | a node is reported exactly when at most threshold edits, or at most threshold mismatches, lie between its word and the query |
| BkTrees.BkTree.constructor | include/qs/bk_tree.hpp:72-73 | an empty tree satisfies the invariant |
| BkTrees.BkTree.PushInRange | include/qs/bk_tree.hpp:158-167 | skip, push and break put exactly the children within the bounds on the stack, in order, within its storage |
| BkTrees.BkTree.Match | include/qs/bk_tree.hpp:137-170 | exactly the stored nodes within the threshold of the query, each once |
| BkTrees.BkTree.Find | include/qs/bk_tree.hpp:172-204 | a stored node with the word, null iff the word is not stored |
| BkTrees.BkTree.Walk | include/qs/bk_tree.hpp:108-129 | the loop ends at a node that has no child under the distance to the new word |
| BkTrees.BkTree.Insert | include/qs/bk_tree.hpp:101-133 | the invariant holds again and exactly one node with the word is added |
| HashTables.FindPrime | include/qs/hash_table.hpp:20-38 | the least table prime above n, or n itself past the last prime |
| HashTables.StoreKeepsPlaces | include/qs/hash_table.hpp:184-189 | filling the free slot that ended a probe keeps every probe path taken and keys unique |
| HashTables.FreeSlot | include/qs/hash_table.hpp:68-83 | with fewer keys than slots some slot is free, so probes end |
| HashTables.StopIsUnique | include/qs/hash_table.hpp:68-83 | a probe has one end, so the loop finds what the specification says |
| HashTables.ProbeFinds | include/qs/hash_table.hpp:68-83 | the probe of a stored key ends at the key, of any other key at a free slot |
| HashTables.FirstWriteWins | include/qs/hash_table.hpp:179-193 | over any sequence of inserts the first value of a new key stays |
| HashTables.WrittenKeys | include/qs/hash_table.hpp:179-193 | over any sequence of inserts old entries stay and the new keys are the keys inserted |
| HashTables.RemoveIsSafeIff | include/qs/hash_table.hpp:238-246 | after removing a key the probes of all others still end at them iff its slot is on the probe path of none |
| HashTables.RemoveCanLoseAKey | include/qs/hash_table.hpp:238-246 | 53 slots, two colliding keys: with the first removed the probe for the second ends at a free slot |
| HashTables.HashTable.FindAvailablePosition | include/qs/hash_table.hpp:68-83 | terminates, never returns -1, finds the slot of the key or the free slot that ends its probe |
| HashTables.HashTable.Store | include/qs/hash_table.hpp:184-188 | one entry more in the map, the rest as before |
| HashTables.HashTable.Insert | include/qs/hash_table.hpp:179-225 | refines a map where the first write wins, across growth; end() for a present key; the capacity changes only from three quarters on, to the least table prime above twice the old one |
| HashTables.HashTable.InsertAll | include/qs/hash_table.hpp:179-225 | any sequence of inserts gives the map in which first writes win, across any number of resizes |
| HashTables.HashTable.Resize | include/qs/hash_table.hpp:85-109 | the map stays the same in a table of the least prime length above twice the old one, not full, so the inserts inside never resize |
| HashTables.HashTable.Rehash | include/qs/hash_table.hpp:93-99 | after i old slots the new table holds exactly their entries |
| HashTables.HashTable.Lookup | include/qs/hash_table.hpp:229-236 | the slot with the value of the key, end() iff the key is absent |
| HashTables.HashTable.Begin | include/qs/hash_table.hpp:318-328 | the first taken slot, or end() |
| HashTables.HashTable.Next | include/qs/hash_table.hpp:287-293 | the next taken slot, skipping only free ones |
| HashTables.HashTable.Iterate | include/qs/hash_table.hpp:287-329 | iteration visits each key of the map once and no other |
| LinkedLists.ChainedWithout | include/qs/list.hpp:200-208 | bridging a node's neighbours leaves a well-linked list of the others |
| LinkedLists.LinkedList.Append | include/qs/list.hpp:146-174 | the value comes last, next and prev stay mutually inverse |
| LinkedLists.LinkedList.Remove | include/qs/list.hpp:200-220 | exactly the node at the position is gone, the order of the others stays |
| LinkedLists.LinkedList.Iterate | include/qs/list.hpp:222-260 | the values from head to tail |
| Parsing.RunsAreWords | include/core.h:125-132 | each maximal run of non-delimiters is a word of the text |
| Parsing.WordsAreRuns | include/core.h:125-132 | each word of the text is a maximal run |
| Parsing.TokensOfJoin | include/qs/parser.hpp:22-29 | tokenizing undoes joining non-empty words with single delimiters |
| Parsing.TokensAreWordsIff | include/qs/parser.hpp:22-29 | the tokens are the words iff no delimiter leads or doubles before a word and not exactly one trails |
| Parsing.DelimitersCanLoseWords | src/lib/string_view.cpp:30-36 | a single trailing or a leading space loses a word |
| Parsing.StringView.constructor | src/lib/string_view.cpp:9-18 | the view spans the text up to the NUL, end pointer inclusive |
| Parsing.StringView.Split | src/lib/string_view.cpp:20-42 | consumes one token and its delimiter; a delimiter in last place takes its token along |
| Parsing.ParseString | include/qs/parser.hpp:22-29 | terminates and emits the tokens of the C string in order |
| Scheduling.StepKeepsInv | include/qs/queue.hpp:58-127 | every atomic step keeps the protocol invariant |
| Scheduling.NoLostWakeup | include/qs/queue.hpp:58-127 | in every reachable state a worker asleep on a non-empty queue is owed a signal, and the submitter sleeps only on a non-empty queue |
| Scheduling.EmptyStaysEmpty | include/qs/scheduler.hpp:17-60 | without a new submission an empty queue stays empty |
| Scheduling.BarrierMeansDone | src/lib/scheduler.cpp:25-29 | when wait_all_finish returns, each worker has run exactly its share of the submissions, in order |
| Scheduling.BarrierInRounds | src/lib/scheduler.cpp:25-29 | when wait_all_finish returns, submission number k is run number k / n of worker k % n |
| Scheduling.BarrierCounts | src/lib/scheduler.cpp:25-29 | and each worker has run one job per full round, one more if the last round came to it |
| Scheduling.TurnIs | include/qs/scheduler.hpp:57-60 | round robin: submission number k goes to worker k % n |
| Scheduling.ShareAt | include/qs/scheduler.hpp:57-60 | a job stands in the share of its worker behind exactly the earlier jobs of that worker |
| Scheduling.WorkerCanGoOn | include/qs/scheduler.hpp:17-29 | a worker with a job has its own next step enabled, whatever the other threads do |
| Scheduling.BarrierRanAll | src/lib/scheduler.cpp:25-29 | when wait_all_finish returns, the jobs run are the jobs submitted, each once |
| Scheduling.Progress | include/qs/scheduler.hpp:17-29 | no deadlock while a job is queued or a call is pending |
| Scheduling.StepDecreases | include/qs/queue.hpp:58-127 | every step of the threads decreases a measure |
| Scheduling.EveryCallReturns | src/lib/scheduler.cpp:25-29 | however scheduled, without new calls the threads come to rest with all queues empty and the call returned |
| Scheduling.RefinesPool | include/qs/scheduler.hpp:57-60 | the scheduler refines a pool of jobs run in any order, each once, with an exact barrier |
| Scheduling.Conservation | include/qs/scheduler.hpp:17-60 | over every run, each submitted job is waiting or has run, never both |
| ResultQueues.StepKeepsInv | include/qs/queue.hpp:58-108 | every atomic step of producers and consumer keeps the queue invariant |
| ResultQueues.NoResultIsSleptOn | src/core.cpp:352-404 | with any number of producers, the client never sleeps on a finished document unless a producer is about to wake it |
| ResultQueues.ResultsInOrder | include/qs/queue.hpp:20-34 | over every run, what was returned, followed by what is in the queue, is what the producers put in, in order, each once |
| ResultQueues.EveryCallReturns | src/core.cpp:395-406 | a GetNextAvailRes with a finished document in the queue returns it, however scheduled |
| ResultQueues.CallReturnsIff | include/core.h:216-218 | with no further result, a call returns under every schedule iff the queue is not empty; the promised error never comes |
| EngineModel.AllowedWordHasTreeIff | src/core.cpp:80-83 | an allowed word has a Hamming tree iff it is not of the greatest length |
| EngineModel.WordMatchIff | include/core.h:61-79 | two words match iff equal, or at most dist of their positions differ, or at most dist edits turn one into the other |
| EngineModel.JoinedIsGood | include/core.h:125-132 | the promises of the client admit every non-empty list of words of allowed lengths joined by single spaces, and parsing returns those words |
| EngineModel.FoundIsNaive | src/core.cpp:267-300 | a match job reports a query and word iff the query is active, has the word, the word matches and its insertion has run: skipping thresholds drops nothing |
| EngineModel.AllHitIffMatches | src/core.cpp:329-342 | the jobs of a document hit all words of a query iff the query is active and matches |
| EngineModel.NaiveIffMatches | include/core.h:143-147 | the naive hits of a document cover a query iff the query is active and matches |
| EngineModel.MatchedIsMatching | src/core.cpp:346-350 | once the hits of the matching queries are in, and only naive ones, the matched queries are those of the naive definition |
| EngineModel.FullWhenSizesAgree | src/core.cpp:260-263 | equal sizes of matched and unique words mean that all words matched |
| EngineModel.AddResultSummarises | src/core.cpp:242-265 | the result table after one more hit, also after the early clear, depends only on the set of hits |
| EngineModel.OrderDoesNotMatter | src/core.cpp:242-300 | two interleavings of the same hits match the same queries |
| EngineModel.BumpKeepsCounters | src/core.cpp:190-208 | counting a started or ended query keeps every counter equal to the number of active queries |
| EngineModel.AddKeepsIndex | src/core.cpp:101-141 | an insertion job puts its query once under its word and changes no other payload |
| EngineModel.StepKeepsInv | src/core.cpp:173-406 | every call, insertion, hit and document end keeps the engine invariant |
| EngineModel.RunKeepsInv | src/core.cpp:173-406 | the invariant holds after every run |
| EngineModel.CountersCountLive | src/core.cpp:190-238 | in every run each counter is the number of queries of its type and distance started and not ended |
| EngineModel.NoInsertionWhileMatching | src/core.cpp:173-240 | in every run whose starts are drained, no insertion is pending while a document is matched |
| EngineModel.IndexIsComplete | src/core.cpp:173-216 | in every run, once no insertion is pending an index holds each live query once under each of its words and nowhere else |
| EngineModel.EndKeepsCountersIff | src/core.cpp:224-240 | ending a query keeps the counters exact iff it was active or of exact type |
| EngineModel.EndTwiceDropsHitsIff | src/core.cpp:232-274 | ending an ended query drops the hits of another of its type and distance iff that one is the only one left |
| EngineModel.LiveIsActive | src/core.cpp:220-238 | the active queries are those started and not ended by the client |
| EngineModel.PromiseHasCall | src/core.cpp:378-394 | what is promised for a document is what the client expected at its MatchDocument call |
| EngineModel.AnswersAreNaive | include/core.h:192-222 | main theorem: in every run, also with late starts that match no document being matched, each answer lists, ascending, exactly the queries live at its MatchDocument call all of whose words match a document word |
| EngineModel.EveryDocumentOnce | include/core.h:197-199 | in every run each submitted document is being matched, finished or delivered, exactly one of them, with one answer |
| EngineModel.DeliveredOnce | include/core.h:197-199 | no document is returned twice |
| EngineModel.AllDeliveredMeansIdle | src/test/test_through.cpp:128-134 | a client that got an answer for every document it submitted knows that none is being matched |
| EngineModel.ClientKeepsDiscipline | src/test/test_through.cpp:121-134 | what the client can check from its calls and answers implies the discipline |
| EngineModel.ListIsUnique | src/core.cpp:351-351 | the ascending list of a set of identifiers is unique, so the answer is determined |
| EngineModel.AnswerNamesIff | include/core.h:192-222 | an answer names a query iff it was live at the MatchDocument call and each of its words is within its distance, counted in edits or mismatches, of a word of the text |
| EngineModel.AscendingIff | include/core.h:205-206 | a list is in the order of an answer iff each identifier has exactly the smaller ones before it |
| EngineModel.AnswersInOrder | src/core.cpp:352-406 | in every run the calls of GetNextAvailRes have returned the first answers in the order the documents ended, and the others wait in that order |
| EngineModel.HarmlessStartIsRun | src/core.cpp:173-222 | a start while a document is matched is a run the theorems cover, for all texts, if the query does not match the document |
| EngineModel.StepKeepsSound | src/core.cpp:173-406 | index, counters and result tables stay right and hits stay naive also when queries are started late |
| EngineModel.FoundGrows | src/core.cpp:267-286 | while a document is matched, what a job finds only grows, so going through the thresholds one by one reports what was there at its start and perhaps more |
| EngineModel.JobReadsOn | src/core.cpp:267-286 | a begun job can still report any naive hit whose insertion has run meanwhile |
| EngineModel.AnyOrder | src/core.cpp:101-355 | no step of the threads is held back: any insertion, any job, the next hit of any stream, and the end of a finished document can be next |
| EngineModel.InternalLeavesLess | src/core.cpp:242-355 | every step of the threads leaves fewer insertions, documents, jobs, hits to find or hits to deliver, in that order |
| EngineModel.InternalProgress | src/core.cpp:242-355 | as long as an insertion or a document is left, some thread can go on |
| EndedTwice.EndTwiceCanLose | src/core.cpp:224-240 | a run: one of two like queries is ended, then ended again; a document with the very word no longer hits the other, which is active |
| Systems.BarrierIff | src/lib/scheduler.cpp:25-29 | no job is pending iff every insertion has run and no document is being matched |
| Systems.EngineAgrees | src/core.cpp:101-394 | in a reachable state, whatever the client, a queue or a worker does next, the engine can take the step it means for the tables |
| Systems.EngineIsOffered | src/core.cpp:101-355 | conversely, whatever the engine can do for the job of a worker that runs it, that worker can do next: no interleaving is left out |
| Systems.SchedulerIsOffered | include/qs/queue.hpp:58-127 | every step of a queue or a worker alone, and every return from the barrier, can be next |
| Systems.ClientIsOffered | src/core.cpp:173-406 | a free client can make any polite call, with the words of a query in any order, and can go on sending |
| Systems.RereadFinds | src/core.cpp:267-286 | at the worker that runs it, a begun job can report a hit that has become indexed since it began |
| Systems.CallsAreTaken | src/core.cpp:173-406 | in every interleaving the calls of the client are taken in order, each once; at most the last is still at its barrier |
| Systems.TraceHasCalls | src/core.cpp:173-406 | what the client has seen are the calls in the run of the engine, in order |
| Systems.ReturnMeansFinished | src/lib/scheduler.cpp:25-29 | when the barrier of the queues lets a call pass, no insertion is pending and no document is being matched |
| Systems.StepKeepsCoupled | include/qs/scheduler.hpp:17-60 | every step keeps the jobs at the workers and those still to be sent equal, each once, to the insertions and documents the engine has open |
| Systems.SystemRunsEngine | src/core.cpp:173-394 | main theorem: in every interleaving of client, queues and workers, what happens to the tables is a run of the engine under a disciplined client, with the calls the client has made, in order |
| Systems.SystemAnswersAreNaive | include/core.h:192-222 | so in every interleaving each answer, delivered or not, is the naive one of its MatchDocument call |
| Systems.StepLeavesLess | include/qs/scheduler.hpp:17-60 | every step without a new call or a spurious wakeup leaves less to do, across client, engine and queues |
| Systems.SystemProgress | src/core.cpp:329-355 | no deadlock between the layers: while a call is open or a job is left, something can step |
| Systems.EveryScheduleSettles | src/lib/scheduler.cpp:25-29 | under every schedule without new calls, the open call returns, its jobs are submitted, and all insertions and documents are done |
| Histories.StepKeepsGood | include/qs/scheduler.hpp:17-60 | every step keeps the record: identifiers and words known from the calls, jobs at the places the calls give them, documents of one worker answered in the order of submission |
| Histories.WaitsIff | src/core.cpp:224-383 | a call waits iff it is EndQuery, or MatchDocument with a start since the last MatchDocument |
| Schedules.EarlierIsClosed | include/qs/scheduler.hpp:17-29 | when a worker has got to a job, every job submitted before it to the same worker is done |
| Schedules.RunDocument | src/core.cpp:329-355 | a worker alone can end its document, and then the answer has exactly the queries all of whose words are hit already or found by the jobs not begun |
| Schedules.RunMany | include/qs/scheduler.hpp:17-29 | a worker alone can run any number of its jobs, with no effect on documents not among them |
| Replays.Follow | src/core.cpp:378-406 | the client can make the same calls and get the same results in a run in which the document has not been begun |
| LateStarts.Entered | src/core.cpp:173-222 | if some answer names a query started after the document, then the document was exposed to it, however the client went on |
| LateStarts.Enter | src/core.cpp:173-222 | if the document is exposed, a run exists with the same calls and results whose answer names the query |
| LateStarts.LateStartEntersIff | include/core.h:194-195 | exact condition: a query started after a document can enter its answer iff the result is outstanding, no call since has waited, the query matches, and no insertion of it goes to the worker of the document |
| LateStarts.ApartIff | include/qs/scheduler.hpp:57-60 | the last condition in numbers: the c insertions from submission m on miss the worker of submission k iff c is at most the distance from m to k modulo the number of threads |
| LateStarts.UndrainedStartCanLeak | include/core.h:194-195 | with two or more threads: document 1 is submitted, then query 7 is started, and the answer for 1 can name 7 |
| LateStarts.OneThreadNeverLeaks | src/core.cpp:157-168 | with one thread, no query enters the answer of a document submitted before it |
| Engines.AddToTree | src/core.cpp:101-114 | the tree holds the index with the query pushed under the word, still one node per word |
| Engines.NearIsMatch | src/core.cpp:336-339 | in the tree chosen for a document word, near means matching |
| Engines.PlaceIsUnique | src/core.cpp:183-216 | a word belongs to exactly one tree of its type |
| Engines.FoundIsHits | src/core.cpp:269-284 | what a match job should report is what the traversals for the counted thresholds hit |
| Engines.NodeHitsAreHits | src/core.cpp:276-283 | the payloads of the matched nodes give exactly the hits of the index for the threshold |
| Engines.NodeHits | src/core.cpp:277-283 | the loop over matched words and payloads reports the active queries of the threshold and no other |
| Engines.SortIds | src/core.cpp:351-351 | an ascending list of exactly the given identifiers |
| Engines.CollectAnswer | src/core.cpp:343-351 | the ascending list of the matched queries |
| Engines.ParseWords | src/core.cpp:178-181 | the set of tokens of the text |
| Engines.MatchJobs | src/core.cpp:336-341 | three jobs per document word |
| Engines.Index.constructor | src/core.cpp:69-92 | empty tables and trees, one edit tree and one Hamming tree per length |
| Engines.Index.AddToHashTable | src/core.cpp:127-141 | the exact table with the query pushed under the word |
| Engines.Index.Add | src/core.cpp:183-216 | the index with the query pushed under the key, in the one tree or table for it; the other trees untouched |
| Engines.Index.MatchAt | src/core.cpp:275-283 | the hits of one threshold, from the real tree |
| Engines.Index.MatchQueries | src/core.cpp:267-286 | the hits the transition system asks for, from the real trees |
| Engines.Index.MatchExact | src/core.cpp:288-300 | the hits the transition system asks for, from the exact table |
| Engines.Engine.AddQueryToDocResults | src/core.cpp:242-265 | the result table after one hit |
| Engines.Engine.RunAdd | src/core.cpp:101-141 | an insertion job is one step of the transition system |
| Engines.Engine.BeginJob | src/core.cpp:267-300 | the start of a match job is one step |
| Engines.Engine.ApplyHit | src/core.cpp:242-265 | delivering a hit is one step |
| Engines.Engine.FinishDoc | src/core.cpp:343-354 | the end of a document is one step |
| Engines.Engine.WaitAllFinish | src/lib/scheduler.cpp:25-29 | ends with no job left, by steps of the threads only |
| Engines.Engine.CountQuery | src/core.cpp:190-208 | the counter of the type and distance goes up by one |
| Engines.Engine.StartQuery | src/core.cpp:173-222 | a start is one step: counted, stored, one insertion job per distinct word |
| Engines.Engine.EndQuery | src/core.cpp:224-240 | waits, then deactivates the query in one step; reports an unknown identifier |
| Engines.Engine.MatchDocument | src/core.cpp:378-394 | waits only if a query was started since the last document, then submits the document in one step; one document more is outstanding |
| Engines.Engine.GetNextAvailRes | src/core.cpp:395-406 | returns the naive answer for the MatchDocument call of an outstanding document, not returned before, the first in the queue if there is one; one document fewer is outstanding |
| Engines.Engine.DrainResults | src/test/test_through.cpp:128-134 | fetches one naive answer for each outstanding document; afterwards none is being matched |
| Engines.Engine.Batch | src/test/test_through.cpp:121-134 | a batch of documents and its results: one naive answer per document, and the engine is idle |

## Left out

- `hash_table::remove` beyond when it is safe, `clear`, and moved-from tables with capacity 0: the engine calls none of them on a table it goes on using.
- `skip_list::remove`, backward iteration and copying, and copies and moves of the other containers: the engine never deletes from a tree.
- Destructors, placement new, allocation failure, addresses of list nodes: memory mechanics.
- The float load factor is the exact fraction; the hash function is arbitrary, so the contracts hold for every one.
- Random tower heights are an arbitrary choice.
- Engines.Engine.constructor: the tables of queries, counters, results and exact words are maps here; `HashTables.HashTable` proves that the hash table is one.
- Engines.SortIds: `qsort` is replaced by a selection of the least; its comparator returns 0 where it should return a negative number, which a qsort may or may not forgive.
- Engines.Engine.FinishDoc: enqueueing the result and removing the document from the pending list are one step; nothing reads that list in between.
- Engines.Engine.BeginJob: the hits of a job are computed at its start and delivered one by one; the class has no method for `ReadAgain`, as in drained runs the trees, counters and queries a job reads cannot change before it ends.
- EngineModel.AnswersAreNaive: an insertion and each reading of an index by a match job are taken as atomic, with any number of readings per job (`ReadAgain`). The code reads indices and counters without a lock; in drained runs `NoInsertionWhileMatching` excludes the overlap, and for a late start torn reads of a tree that is being changed are not modelled. The same holds of `LateStarts`.
- Systems.SystemRunsEngine: StartQuery changes queries and counters before its first submission, where the code does so after the last; an insertion that runs in between sees the query in the model and the same index in both.
- Systems.EngineAgrees: the three workers inside match_doc (src/core.cpp:334) are not put into the queues; its jobs begin in any order while the worker runs the document, and the document ends when all are done, which is what `Scheduling` proves of such workers and their barrier.
- Systems.SystemProgress: GetNextAvailRes is one step that needs a finished document; its waiting is `ResultQueues`.
- Engines.Engine.WaitAllFinish: runs what is left document by document; other orders arise by calling the step methods before, and EngineModel covers them all.
- Engines.Engine.GetNextAvailRes: blocking is letting a pending document finish; with no document pending the original blocks for good, and EC_NO_AVAIL_RES is never returned.
- Scheduling.NoLostWakeup: one submitting thread and no shutdown; closing a queue is not modelled.
- ResultQueues.NoResultIsSleptOn: the engine class keeps finished results in a plain sequence and does not go through the steps of the queue.
- SEARCH_THREADS, thread creation, mutex errors: only locked sections, waits and signals are modelled.
- `active_queries` only sizes a hash table; unknown match types (`EC_FAIL`) cannot be written in the model.
- Distances.EditDistance: requires both words to fit the 62-cell buffer, as every word of 4 to 31 characters does.
- Queries are named by identifier where the code keeps a pointer; a reused identifier is excluded by the header.
- Words of 31 characters in documents and Hamming queries: the tree array has no place for them.
- bloom filter, cyclic buffer, binary search, stringstream, optional, smart pointers, `parse_file`, the benchmark driver.
