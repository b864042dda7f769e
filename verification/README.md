# Verified model of the scry index

scry answers file-name queries over a volume: a snapshot of all records (the base), a small overlay of
changes since (the delta), and a daemon that keeps both up to date and serves clients. Almost all of its
code exists to make a simple search fast: names are front-coded and filtered by a trigram matrix, ancestors
are replaced by depth-first intervals, hits are ranked through bounded heaps over parallel shards, results
are refined in memory, and changes are replayed on the side. This project models those mechanisms in Dafny
and proves that each of them means the same as the plain search it replaces, for every index, query, run and
interleaving.

## How it is organised

| files | what they cover |
|---|---|
| `TreeOrder`, `TreeBuild`, `Dfs`, `DfsFileBacked` | depth-first intervals over an untrusted parent column |
| `Aggregates`, `RankSelect`, `Bits`, `Counting` | recursive sizes and exactness by prefix sums and sampled ranks |
| `Ascii`, `Varint`, `Names`, `Sorting` | the case-insensitive order, front-coded names, ordered lookup |
| `Trigram`, `Literals`, `Query` | the trigram filter, required literals of a pattern, filtered scans |
| `TopK`, `Ranked`, `Cancel` | bounded heaps, sharded and ranked scans, cooperative cancellation |
| `Intervals`, `PathWorld`, `PathTerms`, `PathShort`, `PathSeed`, `PathRank`, `PathFilter`, `PathEnumerate`, `PathDense`, `PathDelta`, `PathNames`, `PathSearch` | path-term search |
| `Bitset`, `DeltaState`, `Delta`, `DeltaReplay`, `DeltaCodec` | the overlay: events, replay, wire format |
| `CompactOrder`, `Compaction`, `CompactFrns` | merging base and overlay into a new snapshot |
| `ArenaBuild` | building an arena from unsorted records |
| `TopSet`, `RefinementCache`, `RefineWalk`, `ViewSearch` | answering from cached hits, and what a fresh search of a view is |
| `Journal`, `LatestWins` | the watcher and worker protocol, the request and reply protocol |
| `ExtensionCounts` | exact counts with spilled sorted runs |

Loops over mutable state are methods with invariants, objects are classes; each is proved against a
specification function or predicate, and the theorems (`Theorem…`) are about those specifications. In the
methods, `ghost names` is the list of names an encoded blob stands for and `w` the world a search runs in:
names, parents, layout and tombstones. `PathWorld.OnPath` is the reference meaning of a path term: it walks
up `tree_parent` and looks at names, and knows nothing of intervals.

A cancellation is a flag that may go up at any poll and stays up; a cancellable operation promises its
result or that the flag is up. Threads that share nothing but that flag run one after another over an
arbitrary partition: each shard's result is a function of its range, and the merges are proved for shard
heaps that hold any best selection.

## What was found

Some properties hold only under a condition the code does not check. Each is proved in its exact form: the
property holds if and only if the condition does, and an input that breaks it is given.

- Compaction places records by merging (base first on equal names) but recomputes slots by a formula that
  ignores ties. The gap is exactly the number of live base records the name ties with
  (`CompactOrder.TheoremDeltaFormula`); parent edges survive if and only if none of them touches a tied
  addition (`Compaction.Compact`), and the FRN sidecar is right if and only if nothing ties (`CompactFrns.MergeFrns`).
- Replaying an applied event sequence applies again if and only if every creation that finds its FRN dead
  still finds its parent (`DeltaReplay.TheoremReplay`); `DeltaReplay.ReplayCanNeedReindex` is a sequence that does not.
- The tree keeps a record's parent edge exactly if the raw chain ends, or meets a smaller index
  (`TreeOrder.TheoremLostEdges`). The comment at scry-core/src/dfs.rs:113-114 says only members of a cycle are
  entered late; a record hanging off a cycle is too and loses its edge (`TreeOrder.TailOffCycleIsCut`).
- The in-memory check of a cached path hit meets every ancestor up to 512, tombstoned ones and files included;
  the search counts live directories. They give a live record the same verdict on all lists of one to fifteen
  terms if and only if each name met occurs, ignoring case, in a counted name and each counted name in one met
  (`RefineWalk.TheoremWalkAgrees`), and refined replies equal fresh ones for all refinements below sixteen terms
  if and only if that holds of every live record (`RefineWalk.TheoremRefinedRepliesAreFresh`). One rename of a
  directory with children is enough to break it (`RefineWalk.RenamedDirectoryStaysInRefinedReplies`).
- With exactly sixteen path terms the mask `(1 << n) - 1` of that check is zero in 16 bits, so it accepts exactly
  the records whose own name holds none of the terms (`RefineWalk.TheoremSixteenTerms`, `RefineWalk.SixteenTermsFail`).
- A search follows 512 references from an addition. It reports an addition for exactly the terms on its path if
  and only if every name past that bound occurs in one within it (`PathNames.TheoremBoundedWalkExact`,
  `PathNames.DeepChainIsCut`).
- After its first cacheable request a connection scans each volume to 20,000 hits. A larger request then gets the
  fresh reply if and only if that reply takes no more than 20,000 hits from any volume
  (`RefinementCache.TheoremCappedReply`, `RefinementCache.LargeReplyIsCut`).
- A failed rebuild drops its batch. The published view is safe if and only if its cursor has not passed an event
  that a failed rebuild dropped and no later one covered (`Journal.TheoremSafeUnlessDropped`,
  `Journal.FailedRebuildLosesAnEvent`).

Besides:

- Substring and regex scans check the limit after a hit, so a limit of zero returns one record (`Query.SearchBase`).
- Without the observation lock a lone request could be cancelled by its own bytes (`LatestWins.WithoutLockTheLatestIsCancelled`).

## Model

| member | source | states |
|---|---|---|
| TreeOrder.TheoremSpanIsReachability | scry-core/src/arena.rs:133-156 | A record lies in a directory's interval if and only if the directory is reached from it by iterating `tree_parent`. |
| TreeOrder.TreeParentIsRetained | scry-core/src/arena.rs:133-156 | `tree_parent`, computed from the intervals alone, is the retained raw edge or none, and its position is strictly smaller. |
| TreeOrder.TheoremLostEdges | scry-core/src/dfs.rs:138-157 | Exactly which parent edges the forest drops: those of roots, and of records whose chain never ends and never meets a smaller index. |
| TreeOrder.TailOffCycleIsCut | scry-core/src/dfs.rs:111-115 | A concrete column where a record on no cycle loses its edge, contrary to the comment. |
| TreeOrder.TheoremLayoutUnique | scry-core/src/dfs.rs:116-157 | The three columns are determined by the parent column, so any two builders of a layout agree. |
| TreeBuild.DoneIsLayout | scry-core/src/dfs.rs:161-202 | When every record has been placed and the stack is empty, the columns are a permutation with nested spans that keeps exactly the surviving edges, siblings and tree starts in order. |
| TreeBuild.FinishKeeps | scry-core/src/dfs.rs:192-201 | Closing the record on top of the stack keeps every invariant of the traversal. |
| TreeBuild.UnseenDoesNotSurvive | scry-core/src/dfs.rs:150-156 | A record still unvisited in the second pass, all smaller ones and all roots being placed, has no surviving parent edge. |
| Dfs.BuildTable | scry-core/src/dfs.rs:76-102 | The compressed rows hold each record's children in ascending order, self-parents and dangling parents excluded. |
| Dfs.FillTable | scry-core/src/dfs.rs:90-101 | Filling through a moving cursor leaves every row complete. |
| Dfs.Walk | scry-core/src/dfs.rs:161-202 | One traversal from a start keeps the invariants, places the start and forgets nothing. |
| Dfs.Build | scry-core/src/dfs.rs:116-157 | For any parent column, cycles, self-parents and dangling parents included, the traversal terminates with a valid layout. |
| DfsFileBacked.WalkFileBacked | scry-core/src/dfs/file_backed.rs:164-219 | The spool-backed traversal, which indexes the rows instead of slicing them, keeps the same invariants. |
| DfsFileBacked.BuildFileBacked | scry-core/src/dfs/file_backed.rs:117-162 | The spool-backed builder yields the same three columns as any other builder. |
| Aggregates.PrefixSumsU64 | scry-core/src/dfs.rs:55-64 | Every prefix is the exact sum and stays within 64 bits below 2^31 records. |
| Aggregates.TheoremRecursiveSize | scry-core/src/arena.rs:344-352 | One subtraction of prefixes is the sum of sizes over all `tree_parent` descendants, saturated at 32 bits. |
| Aggregates.TheoremSubtreeLen | scry-core/src/arena.rs:305-317 | The width of an interval is the number of descendants. |
| Aggregates.DeriveSizeExactBits | scry-core/src/arena.rs:169-192 | A directory is marked exact if and only if no file below it has an unknown size; a file keeps its own flag. The spooled twin (arena/spooled.rs) runs the same loops. |
| RankSelect.BuildSuperblocks | scry-core/src/bitvec.rs:18-27 | Each sample is the number of set bits before its superblock. |
| RankSelect.Rank1 | scry-core/src/bitvec.rs:41-64 | The sampled rank is the number of set bits before the position, past the end included. |
| RankSelect.Select | scry-core/src/bitvec.rs:78-106 | The bisection returns the position of the k-th set (or clear) bit, and none exactly if there are not so many. |
| Ascii.LeqTransitive | scry-core/src/ascii.rs:4-14 | The case-insensitive comparison is transitive, strictly so if either step is strict. |
| Ascii.CmpFlips | scry-core/src/ascii.rs:4-14 | It is total and antisymmetric up to ties. |
| Ascii.TiesAreFolds | scry-core/src/ascii.rs:4-14 | Names tie if and only if their lowercase forms are equal. |
| Ascii.TheoremTiesAreLetters | scry-core/src/ascii.rs:4-14 | They tie if and only if they are equally long and agree in every byte up to the case of ASCII letters. |
| Ascii.TheoremOrderIsLexicographic | scry-core/src/ascii.rs:4-14 | A name comes before another if and only if, after a stretch equal up to case, it ends or has the smaller lowercase byte. |
| Ascii.ContainsCi | scry-core/src/ascii.rs:30-55 | The skipping search finds a lowercase needle if and only if it occurs at some position, ignoring case. |
| Varint.WriteVarint | scry-core/src/arena/names.rs:7-18 | Appends the LEB128 form of the value. |
| Varint.ReadVarint | scry-core/src/arena/names.rs:20-33 | Reads back every 32-bit value that was written, whatever follows, and stops right after it. |
| Names.FrontCoder.Push | scry-core/src/arena/names.rs:59-79 | The coder's blob and offsets stand for the list of names pushed so far. |
| Names.FrontCoder.Finish | scry-core/src/arena/names.rs:81-84 | The finished columns encode exactly the pushed list. |
| Names.NameInto | scry-core/src/arena/names.rs:123-154 | Decodes the i-th pushed name, for every i. |
| Names.WalkAll | scry-core/src/arena/names.rs:173-220 | A full walk visits every record with its name, and flags a repeat only if the name equals the one before. |
| Names.WalkRange | scry-core/src/arena/names.rs:252-293 | The same for any range, across bucket boundaries, with the first visit never a repeat. |
| Names.LowerBoundName | scry-core/src/arena/names.rs:426-479 | The first record whose name is not below the target. |
| Names.PrefixRange | scry-core/src/arena/names.rs:297-421 | Exactly the records whose names start with the prefix, ignoring case. |
| Trigram.IndexTrigrams | scry-core/src/arena/names.rs:106-114 | Indexing one more name marks exactly its trigrams in its block. |
| Trigram.BuildMatrix | scry-core/src/arena/builder.rs:202-217 | The matrix marks a block in a row if and only if the block holds a name with a trigram of that hash; small indexes have none. |
| Trigram.AndInto | scry-core/src/arena.rs:201-212 | Intersects two bitmaps bit by bit. |
| Trigram.OrInto | scry-core/src/arena.rs:214-223 | Unites two bitmaps bit by bit. |
| Trigram.CandidateBlocks | scry-core/src/arena.rs:363-390 | The blocks that hold every trigram of the needle, ascending; no filter exactly if the needle is short or there is no matrix. |
| Trigram.CandidateBlocksForClauses | scry-core/src/arena.rs:396-436 | The same for an AND of ORs of literals. |
| Trigram.ContainingIsPossible | scry-core/src/trigram.rs:13-25 | A name that contains the literal has every trigram of it, so hash collisions can only add blocks. |
| Literals.Analyze | scry-core/src/literals.rs:20-37 | The proof found for a pattern holds of every match, is within the bounds, and is found whenever there is one and no alternation is too wide. |
| Literals.AnalyzeConcat | scry-core/src/literals.rs:25-33 | The clauses of all parts together are sound for a concatenation. |
| Literals.AnalyzeAlternation | scry-core/src/literals.rs:49-73 | An alternation has a proof only if every branch has, and it is sound. |
| Literals.Distribute | scry-core/src/literals.rs:53-72 | The cross product has a clause for every choice and loses nothing; it is found if it fits. |
| Literals.AlternationFallback | scry-core/src/literals.rs:75-85 | The union of each branch's best clause covers all branches. |
| Literals.NormalizeClauses | scry-core/src/literals.rs:87-101 | Clauses come out sorted, distinct and at most 16, each one of the given; nothing is lost if there are no more. |
| Literals.TheoremLiteralsAreRequired | scry-core/src/literals.rs:11-18 | Every name with a match contains, ignoring ASCII case, a literal of each clause. |
| Literals.TheoremRepetitionUnrolls | scry-core/src/literals.rs:24-35 | What a repetition matches: nothing if it may have no turn, or one turn and then the rest of them. |
| Query.TheoremHits | scry-core/src/query.rs:145-191 | The reference answer: exactly the passing records, ascending. |
| Query.TheoremTakenAreFirst | scry-core/src/query.rs:145-191 | A capped answer is ascending, has only hits, has as many as the cap and the hits allow, and misses no earlier one. |
| Query.ScanSubstring | scry-core/src/query.rs:203-261 | Scanning the candidate blocks reports what scanning every name reports, in the same order and cut to the cap. |
| Query.ScanRegex | scry-core/src/query.rs:264-316 | The same for a pattern, through its required literals; a pattern that does not compile reports nothing. |
| Query.ScanBlocks | scry-core/src/query.rs:243-258 | Scanning any blocks that cover the hits, the partial last block included, equals the full scan. |
| Query.SearchBase | scry-core/src/query.rs:79-191 | The first `limit` hits for prefix, substring and pattern alike, ascending and none skipped, or nothing once superseded; a scan with limit zero yields at most one. |
| Ranked.ScanFullParallel | scry-core/src/query/parallel.rs:29-79 | The shards' hits, in shard order, are those of one scan. |
| Ranked.ScanFullParallelRanked | scry-core/src/query/parallel.rs:81-138 | Merging the shards' bounded heaps gives the best `limit` keys of the whole index. |
| Ranked.RankVisits | scry-core/src/query.rs:338-400 | A ranked walk that reuses the match class across repeated names offers the same keys as decoding each name. |
| Ranked.SearchRankedStreaming | scry-core/src/query.rs:331-412 | The best `limit` keys among the live hits, whichever scan produces them. |
| TopK.TheoremRelevanceOrder | scry-core/src/rank.rs:68-72 | Keys sort by class, then clamped length, then record, and give the record back. |
| TopK.TheoremDescendingOrder | scry-core/src/rank.rs:74-92 | Recent and largest keys sort descending on their field, then by record, and give the record back. |
| TopK.RetainHit | scry-core/src/rank.rs:108-118 | After each key the heap holds the `limit` smallest of all keys offered. |
| TopK.MergeHeap | scry-core/src/query/parallel.rs:125-137 | Merging a shard's heap in any order yields the `limit` smallest of both inputs. |
| TopK.TheoremBestIsUnique | scry-core/src/rank.rs:108-118 | There is only one such selection, so the schedule cannot matter. |
| TopK.BestOfParts | scry-core/src/query/parallel.rs:125-137 | Only the retained keys of a part can matter for the whole. |
| TopK.BucketShards | scry-core/src/query/parallel.rs:12-23 | The shards are bucket-aligned ranges that partition the records, at most one a thread. |
| TopK.DrainHeap | scry-core/src/view/ranked.rs:75-92 | Empties the heap, best first. |
| Intervals.IntervalSet.PushSpan | scry-core/src/intervals.rs:39-43 | Adds exactly the positions of the span. |
| Intervals.IntervalSet.PushOrderedPoint | scry-core/src/intervals.rs:49-61 | Points in ascending order extend or append a run and stay coalesced. |
| Intervals.IntervalSet.Coalesce | scry-core/src/intervals.rs:63-83 | Sorting and merging in place changes the runs but not the set. |
| Intervals.IntervalSet.Contains | scry-core/src/intervals.rs:98-112 | Binary search decides membership. |
| Intervals.IntervalSet.IntersectInto | scry-core/src/intervals.rs:125-144 | The two-pointer merge yields exactly the intersection, coalesced. |
| PathWorld.TheoremSpansDenotePaths | scry-core/src/view/path_search.rs:446-520 | The spans of the matching records cover a position if and only if the term occurs in that record's own name or in the name of a live directory reached by `tree_parent`. |
| PathTerms.BuildTermIntervalSet | scry-core/src/view/path_search.rs:446-520 | With or without the trigram filter, the built set denotes the term. |
| PathShort.OwnMatchesParallel | scry-core/src/view/path_search.rs:337-414 | The workers' bitmaps, put together, mark exactly the live records whose own name holds the term. |
| PathShort.Sweep | scry-core/src/view/path_search.rs:422-442 | One sweep over positions turns own matches into the set the term denotes. |
| PathShort.BuildShortSingleTermSet | scry-core/src/view/path_search.rs:328-443 | The short-term builder denotes the same set as the interval builder. |
| PathSeed.Climb | scry-core/src/view/path_search.rs:569-604 | A climb ends at a root or at a directory whose memo entry is right, having taken one step a link and read exactly the names on it, within the budgets; it gives up only when one is exhausted. |
| PathSeed.Unwind | scry-core/src/view/path_search.rs:605-610 | Unwinding fills the memo with right entries for directories only, the starting one included, overwriting colliding ones, and yields the inherited mask. |
| PathSeed.VerifyPathSeed | scry-core/src/view/path_search.rs:542-620 | The verifier either returns exactly the seed positions that are hits or declares its output unusable. |
| PathRank.FinalKeys | scry-core/src/view/path_search.rs:957-990 | Enumerating the final positions gives the keys of the reference hits that pass the filter. |
| PathFilter.TheoremFilterIsItsParts | scry-core/src/view/ranked.rs:310-351 | A filter lets a record through if and only if each of its constraints alone does. |
| PathFilter.TheoremKindsSplit | scry-core/src/view/ranked.rs:317-323 | The kinds File and Directory split the records; directories are those marked so. |
| PathFilter.TheoremExtensions | scry-core/src/view/ranked.rs:324-338 | An extension filter lets through exactly the files named stem, dot, extension, where the extension has no dot and is a wanted one up to case. |
| PathFilter.TheoremSizeBounds | scry-core/src/view/ranked.rs:339-348 | An inexact size meets no bound; an exact one fails a minimum if and only if it meets the maximum one byte below; equal bounds leave exactly the records of that size. |
| PathFilter.TheoremSizeBoundsClosed | scry-core/src/view/ranked.rs:339-348 | Larger records meet every minimum smaller ones meet, and the other way round for maxima. |
| PathFilter.TheoremTimeBounds | scry-core/src/view/ranked.rs:349-351 | The same for modification times: complementary bounds, and equal ones leave exactly that time. |
| PathFilter.TheoremTimeBoundsClosed | scry-core/src/view/ranked.rs:349-351 | Later records meet every minimum earlier ones meet, and the other way round for maxima. |
| PathFilter.TheoremAnswerRespectsFilter | scry-core/src/view/path_search.rs:935-1057 | Every reported record satisfies kind, extension, size and time as stated above, and with room left every hit that does is reported. |
| PathEnumerate.VisitRecord | scry-core/src/view/path_search.rs:931-952 | Reusing the mask of a repeated name keeps the same keys, since the mask is that of a byte-identical name. |
| PathEnumerate.VisitBucket | scry-core/src/view/path_search.rs:34-79 | Unchosen records between chosen ones do not break the reuse. |
| PathEnumerate.VisitRecordBatch | scry-core/src/view/path_search.rs:34-79 | A staged batch is visited bucket by bucket and contributes exactly its records. |
| PathEnumerate.EnumerateBatches | scry-core/src/view/path_search.rs:81-125 | Batched enumeration ends with the best keys of the hits. |
| PathEnumerate.EnumerateSparse | scry-core/src/view/path_search.rs:957-990 | So does decoding each position's name. |
| PathDense.PathRecordBitmap | scry-core/src/view/path_search.rs:166-190 | The bitmap marks exactly the records at the final positions. |
| PathDense.VisitBitmapNames | scry-core/src/view/path_search.rs:127-164 | Enumeration over the bitmap ends with the best keys of the hits. |
| PathDense.RetainDenseParallel | scry-core/src/view/path_search.rs:623-704 | So does enumeration over dense parallel shards. |
| PathDense.Enumerate | scry-core/src/view/path_search.rs:906-990 | Whichever strategy is picked, the heap holds the best keys of the hits. |
| PathDelta.TheoremAddedHits | scry-core/src/view/path_search.rs:1015-1042 | Every addition the walk reports is a hit; below 512 references it reports them all. |
| PathDelta.TheoremTermAbove | scry-core/src/view/path_search.rs:1015-1042 | What a hit means above an addition: some climb through live added directories ends in one whose name holds the term, or at a base record on whose path it occurs. |
| PathDelta.WalkHits | scry-core/src/view/path_search.rs:1015-1042 | The walk from an addition through delta parents into the base sets computes that mask. |
| PathDelta.OfferAdditions | scry-core/src/view/path_search.rs:1004-1057 | Exactly the live additions that hit and pass the filter are offered to the heap. |
| PathSearch.BuildTerm | scry-core/src/view/path_search.rs:786-815 | Whichever builder is picked for a term, the set denotes it. |
| PathSearch.TrySeed | scry-core/src/view/path_search.rs:826-845 | A verified seed is the final set. |
| PathSearch.FoldSets | scry-core/src/view/path_search.rs:856-902 | Folding the sets in cost order, stopping when empty, is the intersection of all. |
| PathSearch.SearchPathTerms | scry-core/src/view/path_search.rs:707-1060 | End to end: the best `limit` keys, best first, of the live base records on whose path every term occurs and of the live additions whose walk of 512 references finds every term, through every planner choice. Each record reported satisfies the filter, and with room left each hit that does is reported; nothing for no terms, more than sixteen, limit zero, or a request superseded at entry. |
| PathNames.WalkHitIsFound | scry-core/src/view/path_search.rs:1015-1042 | That walk accepts an addition if and only if every term occurs in a name it counts. |
| PathNames.TheoremSameAnswers | scry-core/src/view.rs:236-277 | Two sets of names answer all term lists alike if and only if each name of either occurs in a name of the other. |
| PathNames.TheoremBoundedWalkExact | scry-core/src/view/path_search.rs:1018-1041 | When the bound of 512 references costs no hit. |
| PathNames.DeepChainIsCut | scry-core/src/view/path_search.rs:1018-1041 | A chain of 514 added directories whose top is missed. |
| PathNames.TheoremAddedKeysByPath | scry-core/src/view/path_search.rs:1004-1057 | With chains within the bound, the additions offered are exactly those on whose path every term occurs. |
| Bitsets.Bitset.Set | scry-core/src/delta.rs:19-28 | Sets one bit and tells whether it was clear; the rest stays. |
| Bitsets.Bitset.CountOnes | scry-core/src/delta.rs:36-38 | The number of members. |
| DeltaState.TheoremApplyKeepsInv | scry-core/src/delta.rs:130-242 | Every event keeps: an FRN is live in one place, the map names live additions, and parents come before children. |
| Deltas.Delta.Apply | scry-core/src/delta.rs:130-184 | The mutable overlay takes every event as the transition function does, outcome included; the `DeltaReplay` rows say what that means. |
| DeltaReplay.RenameSees | scry-core/src/delta.rs:155-181 | A rename applies if and only if its metadata and parent are found, and then only its own FRN looks different. |
| DeltaReplay.ApplySees | scry-core/src/delta.rs:130-184 | When any event applies, and what every FRN then looks like. |
| DeltaReplay.MetadataSeen | scry-core/src/delta.rs:244-262 | Metadata is that of the live addition, else of the base record even if tombstoned, else missing. |
| DeltaReplay.CreateSees | scry-core/src/delta.rs:186-234 | A creation applies if and only if its FRN is live or its parent resolves, and changes only what a dead FRN of its own looks like. |
| DeltaReplay.DeleteSees | scry-core/src/delta.rs:236-242 | After a deletion the FRN is absent and every other FRN looks as before. |
| DeltaReplay.TheoremNewRecord | scry-core/src/delta.rs:155-234 | An event adds at most one record, keeps the name, parent and metadata of all others, and hangs the new one where its parent stood: at the addition the map gives that FRN, else at its base record, tombstoned or not. |
| DeltaReplay.CreatedInRenamedDirectory | scry-core/src/delta.rs:186-196 | A file created in a directory just renamed hangs below the renamed directory. |
| DeltaReplay.RunSees | scry-core/src/delta.rs:130-242 | What an FRN looks like after a run is a fold over the events that name it. |
| DeltaReplay.FoldTwice | scry-core/src/delta.rs:130-242 | That fold is idempotent. |
| DeltaReplay.TheoremReplay | scry-core/src/delta.rs:130-262 | A run in which all events applied applies again if and only if its creations are covered, and then every FRN looks as before. |
| DeltaReplay.ReplayCanNeedReindex | scry-core/src/delta.rs:198-220 | A run of two events whose replay needs a reindex. |
| DeltaCodec.Encode | scry-core/src/delta.rs:266-302 | The bytes written are the wire form of the overlay. |
| DeltaCodec.LeFour | scry-core/src/delta.rs:266-302 | Integers go out lowest byte first. |
| DeltaCodec.TheoremRecordForm | scry-core/src/delta.rs:335-367 | The record reader accepts exactly the record form (any nonzero byte a true flag, parents in order, a name in UTF-8) and returns what it holds, exactness guessed. |
| DeltaCodec.Decode | scry-core/src/delta.rs:304-389 | For all bytes: they are accepted if and only if they have the overlay form, with a well-formed exactness trailer or none, and then the result is the one overlay they say. |
| DeltaCodec.TheoremEncodedSays | scry-core/src/delta.rs:266-389 | What is written of a valid overlay within the decoder's limit says that overlay, exactness included, so it comes back. |
| DeltaCodec.TheoremAcceptedIsSane | scry-core/src/delta.rs:304-389 | Whatever is accepted has parents in order and no tombstone past the base. |
| DeltaCodec.TheoremReachableOverlay | scry-core/src/delta.rs:266-389 | Any overlay the event machine can reach satisfies the decoder's checks. |
| CompactOrder.TheoremDeltaFormula | scry-core/src/view/compaction.rs:124-136 | The merge puts an addition at the formula's slot plus the number of live base names it ties with; they agree if and only if there is no tie. |
| CompactOrder.FormulaMeetsSlot | scry-core/src/view/compaction.rs:133-136 | A formula can name another addition's slot only inside a tie. |
| CompactOrder.TheoremMergedIsSorted | scry-core/src/view/compaction.rs:143-196 | The merged output is sorted by name. |
| CompactOrder.BaseSlotIs | scry-core/src/view/compaction.rs:160-181 | A base record is pushed at the slot its formula gives. |
| CompactOrder.DeltaSlotIs | scry-core/src/view/compaction.rs:160-194 | An addition is pushed at the slot that counts the ties. |
| Compaction.FinalIndexOfBase | scry-core/src/view/compaction.rs:128-132 | Rank and lower bound compute the slot of a live base record. |
| Compaction.FinalIndexOfDelta | scry-core/src/view/compaction.rs:133-136 | They compute the formula for an addition. |
| Compaction.MergeStreams | scry-core/src/view/compaction.rs:143-196 | The builder holds each live record once, at its slot, with its name, time, kind, size and exactness. |
| Compaction.PatchOne | scry-core/src/arena/spooled.rs:217-221 | Patching the slot of a record with its parent's slot moves the pass past that record and touches no other; without a parent, not patching does. |
| Compaction.PatchBaseParents | scry-core/src/view/compaction.rs:200-211 | After the base pass every base record has its parent's slot, or none if the parent is gone. |
| Compaction.TiedHaveNoParent | scry-core/src/view/compaction.rs:212-224 | If all edges are kept, no tied addition has a live parent. |
| Compaction.TiedAreChildless | scry-core/src/view/compaction.rs:212-224 | Nor is one the parent of a live addition. |
| Compaction.Compact | scry-core/src/view/compaction.rs:65-224 | Every live record has exactly one slot, in name order, and there its own name, time, kind, size and exactness; every parent edge is kept if and only if none touches a tied addition. |
| Compaction.OutputTells | scry-core/src/view/compaction.rs:143-224 | Slot by slot, every live record has one slot and its own name, time, kind, size and exactness there, and the parent pass meets its targets if and only if each slot points to the slot of its parent. |
| Compaction.TheoremKib | scry-core/src/record.rs:53-56 | A size is stored as the least number of KiB that holds it, or the largest 32-bit number. |
| Compaction.TieMisplacesParent | scry-core/src/view/compaction.rs:124-136 | The smallest tie: the formula names the base record's slot. |
| CompactFrns.MergeFrns | scry-core/src/view/compaction.rs:246-297 | The sidecar is strictly ascending, as `save_streaming` demands, and sends each live FRN to its own slot if and only if nothing ties. |
| CompactFrns.MergeEntries | scry-core/src/view/compaction.rs:283-297 | Merging two ascending streams keeps all entries, ascending. |
| ArenaBuild.TheoremOrderIsUnique | scry-core/src/arena/builder.rs:159-163 | Only one permutation is sorted by name with ties by insertion, so the unstable sort is harmless. |
| ArenaBuild.TheoremBuildKeepsAncestry | scry-core/src/arena/builder.rs:165-187 | Sorting and renaming parents keeps every ancestor relation. |
| ArenaBuild.TheoremFrnEntries | scry-core/src/arena/builder.rs:188-198 | The sidecar has exactly one entry for each record with an FRN, at its slot. |
| ArenaBuild.Invert | scry-core/src/arena/builder.rs:165-169 | The rank column undoes the sort order. |
| ArenaBuild.ArenaBuilder.Push | scry-core/src/arena/builder.rs:89-112 | One more staged record, cut out of the shared blob, the others untouched. |
| ArenaBuild.SlotTells | scry-core/src/arena/builder.rs:171-187 | Each slot has the staged name, kind, time, size in KiB, and as parent the slot of the staged parent or none. |
| ArenaBuild.SlotExact | scry-core/src/arena/builder.rs:229-230 | A slot is exact if and only if it is a file staged so, or a directory without an inexact staged file at or below it. |
| ArenaBuild.ArenaBuilder.Build | scry-core/src/arena/builder.rs:150-255 | In terms of the staged rows alone: in name order, equal names in insertion order, every record has its name, kind, time, size, exactness and renamed parent; the tree columns say what their readers rely on. |
| TopSet.RankSortTruncate | scry-daemon/src/search.rs:364-371 | The first `limit` hits of the merged list, in rank order. |
| TopSet.TheoremOrderOfHits | scry-daemon/src/search.rs:364-371 | Ranks ascend, then volumes, then records, and nothing left out comes before anything listed. |
| TopSet.TheoremTopOfPart | scry-daemon/src/search.rs:314-359 | The best of a sufficient part is the best of the whole. |
| RefinementCache.TheoremQualitiesAgree | scry-daemon/src/search.rs:375-394 | The daemon and the engine classify a match alike, so a cached hit ranks as a scanned one. |
| RefinementCache.LoweredNarrows | scry-daemon/src/search.rs:96-103 | A request refines another if and only if its lowercase terms begin, one by one, with the other's. |
| RefinementCache.TheoremRefinementNarrows | scry-daemon/src/search.rs:96-103 | What a refinement matches, the broader query matched. |
| RefinementCache.FilterCached | scry-daemon/src/search.rs:219-245 | Re-checks and re-ranks the cached hits. |
| RefinementCache.TheoremFilterIsScan | scry-daemon/src/search.rs:108-130 | Filtering a complete cached set gives the complete set of the refined query if and only if the re-check agrees with the search on the older query's matches. |
| RefinementCache.TrustedRechecks | scry-daemon/src/search.rs:108-130 | It does for prefixes and substrings on every view, and for path terms where the walk agrees. |
| RefinementCache.SearchIndexes | scry-daemon/src/search.rs:314-359 | The uncached path answers with the best of all volumes. |
| ViewSearch.TheoremBestIsTop | scry-core/src/view/ranked.rs:75-117 | The best packed keys of a view, drained, are the best of its matches by rank and record. |
| ViewSearch.RankPrefix | scry-core/src/view/ranked.rs:214-245 | The prefix arm keeps the best keys of the live records in the range. |
| ViewSearch.SearchNames | scry-core/src/view/ranked.rs:157-300 | The best keys of the live base hits and the live matching additions; superseded, still keys of such hits. |
| ViewSearch.NameKeysAreViewKeys | scry-core/src/view/ranked.rs:157-300 | What a search by name offers is one key for each match of the view. |
| ViewSearch.AnswerAreViewKeys | scry-core/src/view/path_search.rs:957-1057 | So is what a path search offers. |
| ViewSearch.TheoremColumnsRank | scry-core/src/view/ranked.rs:52-72 | Recent ranks by later modification time, Largest by greater size, an inexact size counting as zero. |
| ViewSearch.RankIsOrder | scry-core/src/view/ranked.rs:52-72 | Ranks order a view's records as the user asked: by relevance, time or size, ties by record. |
| ViewSearch.TopLeavesOutLater | scry-core/src/view/ranked.rs:75-117 | A best selection leaves out only matches that come later in that order. |
| ViewSearch.SearchView | scry-core/src/view.rs:141-196 | For every kind, order, limit and plan the hits are live matches, each once, in the order asked for: latest first, or largest first, or by relevance. Unless superseded no match left out comes before a listed one, and the hits are what the cache calls a fresh scan; superseded at entry, there are none. |
| RefinementCache.SearchWithCache | scry-daemon/src/search.rs:158-293 | Unless superseded, the answer is the best of what each volume contributes to the scan limit, the fresh one for limits up to it; the first request that can be cached, and those that never are, get the fresh answer whatever their limit. It says how many volumes were answered without a scan: for a refinement of the last request, those still at their remembered generation. Every cached entry left behind is a complete match set at its generation, and on a warm cache there is one for each volume with fewer matches than the cap; a request superseded at entry gets nothing and leaves the cache alone. |
| RefinementCache.TheoremRefinementScansNothing | scry-daemon/src/search.rs:209-262 | After a request on a warm cache, a refinement of it over unchanged volumes, each with fewer matches than the cap, scans none of them. |
| RefinementCache.TheoremCappedReply | scry-daemon/src/search.rs:199-204 | A reply scanned to a cap is the fresh one if and only if the fresh one takes no more than the cap from any volume. |
| RefinementCache.LargeReplyIsCut | scry-daemon/src/search.rs:199-204 | A volume of 20,001 matches, asked for all of them, gets a reply that is not the fresh one. |
| RefinementCache.Connection | scry-daemon/src/rpc.rs:101-124 | Over any sequence of requests and view swaps on a connection, every reply that was not superseded is the best of what its volumes contribute, and up to 20,000 it is the fresh reply, the only one. |
| RefineWalk.MatchesPathTermsLower | scry-core/src/view.rs:236-277 | The walk with its 512-hop bound and 16-bit masks computes the modelled verdict. |
| RefineWalk.TheoremWalkAgrees | scry-core/src/view.rs:236-277 | Walk and search give a live record, base or added, the same verdict on all lists of one to fifteen terms if and only if the names met and the names counted occur in one another. |
| RefineWalk.TheoremViewAgrees | scry-core/src/view.rs:236-277 | A view can be re-checked in memory if and only if that holds of each of its live records. |
| RefineWalk.TheoremRefinedRepliesAreFresh | scry-daemon/src/search.rs:219-245 | Refined path replies are fresh for all refinements below sixteen terms if and only if it does. |
| RefineWalk.TheoremViewsNarrow | scry-daemon/src/search.rs:96-103 | What a path search reports, by its bounded walk, only shrinks when terms are added or extended, on every view. |
| RefineWalk.TheoremReachableViewsNarrow | scry-daemon/src/search.rs:96-103 | The same for every delta the event machine reaches. |
| RefineWalk.TheoremCleanViewsAgree | scry-core/src/view.rs:236-277 | Views of live directories less than 512 deep can be re-checked in memory. |
| RefineWalk.TheoremSixteenTerms | scry-core/src/view.rs:236-277 | With sixteen terms the walk accepts exactly the records whose own name holds none. |
| RefineWalk.SixteenTermsFail | scry-core/src/view.rs:236-277 | A hit the walk rejects. |
| RefineWalk.RenamedDirectoryStaysInRefinedReplies | scry-core/src/view.rs:236-277 | After one rename of a directory, a file in it stays in the refined reply and is not in the fresh one. |
| Journal.TheoremAcceptedCursorLosesNothing | scry-fsevents/src/windows/journal.rs:133-147 | A cursor is accepted if and only if the journal still holds everything after it. |
| Journal.StepKeeps | scry-daemon/src/updates.rs:107-234 | Every step of file system, watcher and worker, a failing rebuild included, keeps track of every event. |
| Journal.TheoremSafeUnlessDropped | scry-daemon/src/updates.rs:145-234 | Rebuilds failing or not, no published cursor is past an event neither applied nor enumerated if and only if it is not past one that a failed rebuild dropped. |
| Journal.TheoremSafePublish | scry-daemon/src/updates.rs:182-220 | Publishing keeps a safe view safe if and only if the collected cursor is not past a dropped event. |
| Journal.TheoremDeliverySafety | scry-fsevents/src/windows/journal.rs:190-290 | In every interleaving over the bounded queue in which rebuilds succeed, no published view carries a cursor past an event it has neither applied nor enumerated. |
| Journal.TheoremQuietViewLacksDropped | scry-daemon/src/updates.rs:145-234 | Once all is read, delivered and digested, the view lacks exactly the dropped events. |
| Journal.TheoremQuietCursor | scry-daemon/src/changes.rs:169-180 | Where nothing overflowed and nothing was rebuilt, a quiet view carries the last cursor the watcher reached. |
| Journal.FailedRebuildLosesAnEvent | scry-daemon/src/updates.rs:222-233 | A run in which a rebuild fails and a cursor is published past a lost event. |
| LatestWins.StepKeepsInv | scry-daemon/src/rpc.rs:53-121 | Every step of client, request thread and peeker keeps one reply a request, in order, and cancels only a superseded one. |
| LatestWins.PeekIsJustified | scry-daemon/src/rpc.rs:53-73 | Bytes seen during a search belong to a newer request. |
| LatestWins.TheoremLatestWins | scry-client/src/session.rs:57-93 | The i-th frame read answers the i-th request, and the frame that leaves nothing pending answers the last one, uncancelled. |
| LatestWins.TheoremPendingRepliesArrive | scry-daemon/src/rpc.rs:86-121 | While a reply is pending, the outstanding work is positive, never grows, and can be advanced. |
| LatestWins.WithoutLockTheLatestIsCancelled | scry-daemon/src/rpc.rs:46-51 | Without the lock, a run in which the only request is cancelled by its own bytes. |
| LatestWins.OneToOneKept | scry-client/src/session.rs:44-61 | Every step, a send included, keeps as many replies to come as requests sent and not yet answered, in the order of sending. |
| LatestWins.Client.RecvInteractive | scry-client/src/session.rs:63-78 | Reads as many frames as are pending and returns the reply in the last, or an error if that one is malformed; a broken pipe leaves the rest pending. |
| LatestWins.Client.TryRecvInteractive | scry-client/src/session.rs:80-93 | Reads what has arrived; when nothing is pending any more it returns the reply in the last frame or an error if that one is malformed, and otherwise nothing. |
| LatestWins.TheoremReceiveIsLatest | scry-client/src/session.rs:63-93 | What either receive returns, given well-formed frames, is the uncancelled answer to the last request. |
| ExtensionCounts.Merge | scry-bench/src/extension_counts.rs:138-172 | Merging two sorted runs adds up their counts; it fails if and only if a key is too long or a count exceeds 64 bits. |
| ExtensionCounts.ExtensionCounter.InsertRun | scry-bench/src/extension_counts.rs:63-80 | The binary counter of runs gains exactly the new run, and never exceeds 64 levels. |
| ExtensionCounts.ExtensionCounter.Add | scry-bench/src/extension_counts.rs:30-41 | Counts one more lowercase key, and the map stays below its budget or is spilled. |
| ExtensionCounts.CountsAreMultiplicities | scry-bench/src/extension_counts.rs:138-172 | The counts of a run are the multiplicities of its keys. |
| ExtensionCounts.Report | scry-bench/src/extension_counts.rs:102-112 | The last pass finds the number of keys and the ten largest counts. |
| ExtensionCounts.CountExtensions | scry-bench/src/extension_counts.rs:30-113 | For every input and budget the report is that of a plain tally; it fails exactly on an extension over 65,536 bytes. |

## Left out
- Win32 calls, pipes, sections, memory maps, file renames and fsync: only queues, arrays and atomic steps remain. `Spool` and mapped columns are arrays or sequences.
- The archive layout and its checks, raw MFT parsing, console, rendering, metrics, updater, benchmarks and Python summaries.
- The regex and Aho-Corasick engines: a pattern is a small tree with its language, an automaton is "contains, ignoring ASCII case". Folding is ASCII folding; the engine's Unicode folding (the Kelvin sign, the long s) can match names the ASCII literals exclude.
- Literals.Analyze: assumes no alternation is without branches, as the parser guarantees; sorting and parsing themselves are the library's.
- Library sorts are insertion sorts, and `BinaryHeap` is a multiset with a maximum.
- Words of 64 bits: `and_into`, `or_into`, `rank1` and the bitset are modelled on bytes, which the word grouping does not change.
- RankSelect.Rank1: adds the bytes after the sample one by one, not in words.
- Trigram.CandidateBlocks: the needle's hashes are not sorted and deduplicated first, which only changes the order of intersections.
- Reuse of scratch buffers between searches: every search starts with fresh ones. `iter_positions` is flattened into loops over runs, and stored term sets are passed on as their run lists.
- Threads: shards that share only the cancellation flag run one after another, over the code's partition; a panic of a worker is not modelled.
- Ranked.SearchRankedStreaming: the number of candidates seen, which only feeds the metrics, is not returned.
- PathSearch.SearchPathTerms: answers with sort keys; `ViewSearch` takes record and rank back out of them, and the size, time and kind a hit also carries are read from the columns.
- Intervals.IntervalSet.IntersectInto: the output must be another set than the inputs, as Rust's borrowing rules demand.
- Compaction.Compact: parents of base records are in range, as both builders ensure; an out-of-range one would make the original panic. The spooled builder's own name coder and trigram index repeat `Names` and `Trigram` and are not modelled again, nor are the passes after patching, which are `DfsFileBacked` and `Aggregates`.
- Deltas.Delta.Rename: renaming a directory that lives in the overlay leaves its children pointing at the dead record, whose name then no longer counts; the model does the same and states no more.
- RefinementCache.Connection: path queries of sixteen terms, and views on which the re-check and the search differ, are excluded; `RefineWalk` says exactly which those are. The environment override, statistics beyond the volumes reused and scanned, and path materialisation are left out. The loop `SearchHits` stands for the search of a view, of which `ViewSearch.SearchView` proves the same.
- Journal.TheoremSafeUnlessDropped: the watcher starts from the published cursor, and events that the self-write filter drops do not exist. Publishing after a compaction is publishing: it changes neither the cursor nor what is accounted for.
- Events in `Journal` are positions, so that a stale event drained before a rebuild is applied again after it is not told apart from its first application. `IdlePersistSchedule` decides only when to persist.
- LatestWins.TheoremLatestWins: all requests are well formed (an undecodable frame gets no reply at all, scry-daemon/src/rpc.rs:105-107), and nobody else uses the connection. What an uncancelled reply contains is `RefinementCache`.
- ExtensionCounts.CountExtensions: fewer than 2^64 extensions, each shorter than 4 GiB; runs are lists of entries, without their byte format, and file errors do not happen.
- ArenaBuild.ArenaBuilder.Build: the encoded names and the trigram matrix of the result are `Names` and `Trigram`, over the sorted list.
- TopK.TheoremDescendingOrder: the record is local to a volume; volumes break ties only in `TopSet`.
- `full_path_into` and `delta_path`: they build strings for display along the chains the searches already walk.
- FRN map lookup, request and result framing, name conversions: single-function code without an invariant of its own.
