# ACOR in Dafny

ACOR keeps one keyword dictionary in Redis and matches text against it in local
Aho-Corasick engines. This project models its matching engines, its two storage schemas
and the protocols around them, and proves what they promise for every dictionary, every
text and every interleaving of clients.

`dafny verify dfyconfig.toml` checks all of it with Dafny 4.11.

## What is modelled

**Matching.** Keywords and texts are sequences of runes. `Matching` defines the list of all
occurrences independently of any automaton and shows that two facts determine it: it holds
exactly the occurrences, and it is ordered by end and then longest first. The three engines
are built in loops over real arrays as the code builds them: the map NFA with its ASCII and
Bloom pre-filter (`MapEngine`, `Bloom`), the full DFA (`SpeedEngine`), and the double-array
trie with a band of precomputed rows (`DoubleArray`, `BalancedEngine`). They share the trie
build and linking (`TrieBuild`), the output chains (`OutputTables`) and the theory of states
and failure links (`Automaton`). `Engines` states the search operations once over the
engines' own steps; all of them return the reference list or a fold of it, so the three
engines agree. `ByteScan` shows that the raw byte loops of find, findSet and contains for
ASCII dictionaries change nothing. `Composite` and `CompositeStream` merge disjoint shards:
sorted, deduplicated and heap-merged results equal those of one engine over the union.

**Bounded text processing.** `Selection` defines leftmost-longest selection and proves sort
and greedy compaction equal to it; `Scan` proves the same of the streaming window with its
heap, for every limit, and sets it beside FindMatches; `CompositeScan` runs the window over
sharded engines. `Parallel` proves that chunks owning disjoint start ranges give the serial
index map.

**The V2 schema.** `TriePlan` is the planner, `TrieStore` any number of writers that read,
plan and commit by compare-and-set while others flush, `PresetReload` one process that keeps
a local engine by generation counter, stale flag and version poll.

**The versioned collection.** `VersionedStore` is a transition system in which every Lua
script is one atomic action, over a global namespace and any number of shard namespaces.
Each node has its own clock; clocks differ by constants and run at the same rate, in
milliseconds. Clients stall arbitrarily: a writer may run each of its scripts at any later
time, in any order and repeatedly, also after its lease ran out; a pruner runs its scripts
in order and after a lost response only releases. `VersionedInvariant` and `VersionedSteps`
hold the inductive invariant, `VersionedRuns` and `VersionedLocks` what follows for every
run. `VersionedLeases` shows what a granted lease or key is worth, `VersionedEffects` what a
successful stage, commit or refresh achieves, and `VersionedPruning` that a prune deletes
exactly what no kept generation reaches; `VersionedExample` is one run through all of it.
`VersionedPreparations` decides when an abandoned write can still reach a shard.
`BucketStorage`, `Dictionaries`, `Manifests` and `VersionedWrites` are what a write computes
and what a reader loads back. `WritePlans` ties them to the transition system: creation,
changes and reshards, repeated in any order, only make the plans it admits. `Refresh` is the
serving side with its caches.

## Conventions

- SHA-256 is an injective constructor, JSON a bijective encoding whose lengths are a
  parameter, random ids and versions are fresh. One write owns one lease id, and its
  generation, operation and shard manifests are named after it.
- A callback is a predicate on everything it has been given so far; returning false stops
  the scan.
- A maintenance key exists while the node's clock is below its deadline, as leases do.
- Slices that grow are sequences held in fields or variables; fixed tables are arrays.
- The engines repeat the trie build and the scan loops with their own node types; here the
  build is written once for map nodes and the loops once over each engine's step.
- `pkg/acor/versioned_prune.go:111-114` says that expired preparations cannot register
  fresh data in a shard because mirrored deadlines cannot outlive the global lease. Of a
  lease that runs out this is true exactly when the shard's clock is not behind the global
  one (`VersionedPreparations.SafeIffNotBehind`); of a lease closed early, with a mirror on
  the way, it is false for any clocks (`ClosedLeaseRegisters`). No other proof uses the
  remark, and no committed generation depends on such data.

## Model

| member | source | states |
|---|---|---|
| `Matching.KeywordSuffixesExact` | internal/engine/engine_output.go:101-113 | the chain of a scanned text holds a keyword if and only if it is a non-empty dictionary word that ends the text |
| `Matching.KeywordSuffixesDecreasing` | internal/engine/engine_output.go:126-135 | one end offset lists its keywords strictly longest first |
| `Matching.AllMatchesExact` | internal/engine/engine.go:71-91 | the reference list holds exactly the occurrences of dictionary words, with their spans |
| `Matching.AllMatchesOrdered` | internal/engine/engine_composite.go:42-52 | the reference list is strictly increasing by end and then start, so nothing repeats |
| `Matching.AllMatchesUnique` | internal/engine/engine_composite.go:42-52 | any strictly ordered list of exactly the occurrences is the reference list |
| `Matching.DeliveredExact` | internal/engine/engine.go:80-89 | a callback receives the shortest prefix it rejects, or everything |
| `Automaton.LandingLongest` | internal/engine/engine_map.go:85-124 | the state after a text is the longest suffix of the text that is a trie path |
| `Automaton.LandingStep` | internal/engine/engine_map.go:245-262 | the next state depends on the text only through the current state |
| `Automaton.FailStep` | internal/engine/engine_map.go:245-262 | a failure hop does not change where the next rune leads |
| `Automaton.LandingKeepsOutputs` | internal/engine/engine_output.go:101-113 | the keywords ending in a text are those of the state it lands in |
| `Automaton.ForeignRuneLandsAtRoot` | internal/engine/engine_flat.go:292-297 | a rune outside the alphabet leads to the root |
| `Automaton.LinkFromFail` | internal/engine/engine_map.go:114-123 | the output link built from the failure target is the nearest keyword-carrying state on the failure path |
| `Automaton.BfsComplete` | internal/engine/engine_map.go:85-124 | a drained breadth-first queue has visited every trie state |
| `Automaton.BfsShallow` | internal/engine/engine_flat.go:149-186 | when a state is processed, every state no deeper has been reached and every shallower one processed |
| `Automaton.BfsBound` | internal/engine/engine_flat.go:149-186 | the queue never outgrows the trie, so the loops end |
| `OutputTables.Outputs.Assign` | internal/engine/engine_output.go:58-65 | a terminal state gets an id that stands for its keyword and length; other ids keep theirs |
| `OutputTables.Outputs.AssignID` | internal/engine/engine_output.go:69-82 | a new id beyond all existing ones, never the sentinel 0 |
| `OutputTables.CarriesKeyword` | internal/engine/engine_composite.go:158-164 | own slot or link set if and only if some keyword ends in the state |
| `OutputTables.ChainOf` | internal/engine/engine_output.go:101-135 | every output chain is finite and holds exactly the keyword suffixes of the state, longest first |
| `OutputTables.AppendChain` | internal/engine/engine_output.go:103-113 | appends exactly the state's keyword suffixes, longest first |
| `OutputTables.IndexChain` | internal/engine/engine_output.go:117-124 | records the start offset of every match that ends here |
| `OutputTables.EmitChain` | internal/engine/engine_output.go:128-135 | delivers the state's matches until the callback stops, and says whether it did |
| `OutputTables.DedupMembers` | internal/engine/engine_output.go:149-164 | removing later duplicates keeps exactly the members, each once |
| `OutputTables.DedupOrder` | internal/engine/engine_output.go:149-164 | and keeps them in the order in which they are first met |
| `OutputTables.SetCollector.MarkState` | internal/engine/engine_output.go:167-181 | answers whether the state is new and records it, for both the bit table and the map |
| `OutputTables.SetCollector.MarkKeyword` | internal/engine/engine_output.go:184-197 | answers whether the keyword id is new and records it |
| `OutputTables.SetCollector.CollectChain` | internal/engine/engine_output.go:207-233 | reporting a state gives the same set, in the same order, as appending its whole chain, although visited states are skipped |
| `Bloom.BloomFilter.Add` | internal/engine/engine_bloom.go:46-52 | records one more rune and loses none |
| `Bloom.BloomFilter.MightContain` | internal/engine/engine_bloom.go:54-63 | no false negatives: an added rune is never denied, whatever the hash; otherwise the answer is that all its bits are set |
| `Coder.AlphabetCoder.Code` | internal/engine/coder.go:49-59 | a rune has a code if and only if it is in the alphabet, and then the code of that rune |
| `Coder.AlphabetCoder.CodeByte` | internal/engine/coder.go:39-45 | for an ASCII alphabet, a byte has a code if and only if it is an alphabet rune |
| `Coder.CollectRunes` | internal/engine/engine_flat.go:60-73 | the alphabet holds each rune of each keyword once |
| `Transitions.PackState` | internal/engine/engine_output.go:21-30 | unpacking gives back the state and the flag |
| `TrieBuild.InsertAll` | internal/engine/engine_map.go:48-83 | the nodes number exactly the trie paths of the keywords, with their edges, depths and keyword ids; empty keywords are skipped and repeats do nothing |
| `TrieBuild.FailWalk` | internal/engine/engine_map.go:97-112 | the walk ends at the longest proper suffix path that has the child |
| `TrieBuild.LinkAll` | internal/engine/engine_map.go:85-124 | every failure link is the longest proper suffix path, strictly shallower, and every output link the nearest keyword below; the visiting order is breadth-first |
| `TrieBuild.LinkedTables` | internal/engine/engine_map.go:114-123 | the finished tables make every chain walk exact |
| `MapEngine.MemEfficientEngine.SkipAtRoot` | internal/engine/engine_map.go:267-275 | only runes that start no keyword are skipped, and every such ASCII rune is |
| `MapEngine.MemEfficientEngine.Advance` | internal/engine/engine_map.go:245-257 | the failure walk ends in the state of the extended text |
| `MapEngine.MemEfficientEngine.Step` | internal/engine/engine_map.go:235-262 | with the pre-filter, one step still lands in the right state, and a skipped step has no match |
| `SpeedEngine.SpeedEngine.constructor` | internal/engine/engine_flat.go:52-246 | for any keyword list the table is a full DFA of the dictionary, unless the trie is too large to pack, which is exactly when the code panics |
| `SpeedEngine.FillTable` | internal/engine/engine_flat.go:199-234 | filled in breadth-first order, every entry is the NFA's next state with an exact output flag |
| `SpeedEngine.FillRow` | internal/engine/engine_flat.go:222-234 | one row is right, and the other rows are untouched |
| `SpeedEngine.SpeedEngine.Load` | internal/engine/engine_flat.go:273-283 | one table load is one step of the scan, with an exact output flag |
| `SpeedEngine.SpeedEngine.Step` | internal/engine/engine_flat.go:292-305 | one step lands in the right state; the flag is true if and only if a keyword ends there |
| `SpeedEngine.SpeedEngine.Contains` | internal/engine/engine_flat.go:357-395 | looking only at the flag of each packed entry, it is true if and only if some keyword occurs |
| `DoubleArray.GotoExact` | internal/engine/engine_dat.go:299-308 | in a faithful packing the goto is the trie's child for every state and code, and 0 exactly when there is none |
| `DoubleArray.PackedPlace` | internal/engine/engine_dat.go:165-193 | placing a child on a free position keeps every other state's transitions and distinct positions |
| `DoubleArray.AlphabetSmaller` | internal/engine/engine_dat.go:135-150 | the alphabet is smaller than the node count, so the capacity exceeds it |
| `DoubleArray.DoubleArrayTrie.EnsureCapacity` | internal/engine/engine_dat.go:72-77 | the arrays grow past the needed index and keep their contents |
| `DoubleArray.DoubleArrayTrie.FindBase` | internal/engine/engine_dat.go:221-256 | terminates with a base under which every code falls on a free position within the arrays |
| `DoubleArray.DoubleArrayTrie.Probe` | internal/engine/engine_dat.go:234-254 | one doubling per probe keeps the index in bounds; a conflict needs a base inside the used part |
| `DoubleArray.DoubleArrayTrie.Place` | internal/engine/engine_dat.go:135-200 | every trie node gets its own position and every child hangs off its parent |
| `DoubleArray.DoubleArrayTrie.ComputeFailLinks` | internal/engine/engine_dat.go:258-297 | every failure and output link is the right one |
| `DoubleArray.DoubleArrayTrie.FollowFail` | internal/engine/engine_dat.go:310-322 | the walk terminates in the state of the extended text |
| `DoubleArray.DoubleArrayTrie.GotoFaithful` | internal/engine/engine_dat.go:299-308 | the built arrays answer every goto as the trie does |
| `DoubleArray.DoubleArrayTrie.constructor` | internal/engine/engine_dat.go:79-219 | for any keyword list the arrays are a faithful packing with right links, outputs and depths |
| `BalancedEngine.BandRows` | internal/engine/engine_banded_dfa.go:119-128 | counts the positions that get a row, gaps excluded |
| `BalancedEngine.BalancedEngine.BuildBand` | internal/engine/engine_banded_dfa.go:62-103 | on either side of the size guard the engine is valid: every banded row is exact, and without a band the failure walk serves |
| `BalancedEngine.BalancedEngine.FillBandRow` | internal/engine/engine_banded_dfa.go:90-102 | a band row holds the NFA's next state and an exact flag for every code; other rows stay |
| `BalancedEngine.BalancedEngine.StepCode` | internal/engine/engine_banded_dfa.go:135-149 | banded or not, a step is the NFA's next state with an exact output flag |
| `BalancedEngine.BalancedEngine.Step` | internal/engine/engine_banded_dfa.go:279-303 | one scan step lands in the right state; a foreign rune resets to the root |
| `BalancedEngine.BalancedEngine.Contains` | internal/engine/engine_banded_dfa.go:239-244 | stopping at the first state with output, it is true if and only if some keyword occurs |
| `Engines.Build` | internal/engine/engine_handle.go:34-45 | builds a valid engine of exactly the non-empty keywords given, except when the speed preset meets a trie with too many states to pack, and exactly then |
| `Engines.Engine.Find` | internal/engine/engine_handle.go:50-52 | each engine returns the keywords of all occurrences in reference order |
| `Engines.Engine.FindSet` | internal/engine/engine_handle.go:93-95 | each engine returns Find without later duplicates |
| `Engines.Engine.FindIndex` | internal/engine/engine_handle.go:56-58 | each engine returns the start offsets of all occurrences, by keyword, in order |
| `Engines.Engine.MatchString` | internal/engine/engine_handle.go:67-69 | each engine delivers exactly the reference matches until the callback stops |
| `Engines.Engine.Contains` | internal/engine/engine_handle.go:72-86 | by the engine's own loop or by the callback that stops at once, true if and only if some keyword occurs |
| `ByteScan.BytesOfUnit` | internal/engine/engine_flat.go:268-272 | section 3 of RFC 3629: an ASCII rune is its own byte, and no byte of anything else is ASCII |
| `ByteScan.BytesFindTheSame` | internal/engine/coder.go:36-45 | for ASCII keywords the bytes of any text, stray bytes included, give the same keyword list as its runes |
| `ByteScan.BytesContainTheSame` | internal/engine/coder.go:36-45 | for ASCII keywords some keyword occurs in the bytes if and only if one occurs in the runes |
| `ByteScan.FindSpeed` | internal/engine/engine_flat.go:257-310 | byte loop or rune loop, find returns the keywords of the text's runes |
| `ByteScan.FindSetSpeed` | internal/engine/engine_flat.go:314-352 | byte loop or rune loop, findSet returns the keywords of the text's runes without later duplicates |
| `ByteScan.ContainsSpeed` | internal/engine/engine_flat.go:357-395 | byte loop or rune loop, contains decides whether a keyword occurs in the text's runes |
| `ByteScan.FindBalanced` | internal/engine/engine_banded_dfa.go:198-235 | byte loop or rune loop, the scan returns the keywords of the text's runes |
| `ByteScan.FindSetBalanced` | internal/engine/engine_banded_dfa.go:176-188 | byte loop or rune loop, findSet returns the keywords of the text's runes without later duplicates |
| `ByteScan.ContainsBalanced` | internal/engine/engine_banded_dfa.go:239-244 | byte loop or rune loop, contains decides whether a keyword occurs in the text's runes |
| `IndexMaps.IndexOfMatches` | internal/engine/engine_output.go:117-124 | the index map lists, for exactly the keywords that occur, all start offsets in increasing order |
| `IndexMaps.IndexUnique` | pkg/acor/parallel.go:209-238 | a text has only one such map |
| `WordOrder.RisingUnique` | pkg/acor/versioned_write.go:318-322 | a set of keywords has one increasing list |
| `WordOrder.CompareWordsLexicographic` | pkg/acor/versioned_write.go:318-322 | keywords are compared lexicographically |
| `Composite.SortedIsReference` | internal/engine/engine_composite.go:94-99 | sorting any listing of exactly the occurrences gives the reference list |
| `Composite.FirstOccurrences` | internal/engine/engine_composite.go:98-119 | keeping first matches keeps exactly the first occurrence of each keyword, in order |
| `Composite.FirstMatches` | internal/engine/engine_composite.go:101-119 | the collector's first matches are the reference's, although visited states are skipped |
| `Composite.CompositeEngine.constructor` | internal/engine/engine_composite.go:15-28 | dropping engines without keywords keeps the split of the dictionary |
| `Composite.CompositeEngine.Matches` | internal/engine/engine_composite.go:78-97 | for any split into disjoint shards, the sorted matches are those of one engine over the union |
| `Composite.CompositeEngine.Find` | internal/engine/engine_composite.go:121-123 | Find equals a single engine's |
| `Composite.CompositeEngine.FindSet` | internal/engine/engine_composite.go:124-126 | FindSet equals a single engine's, in its order |
| `Composite.CompositeEngine.FindIndex` | internal/engine/engine_composite.go:134-144 | the joined index maps equal a single engine's |
| `CompositeStream.NextMatch` | internal/engine/engine_composite.go:186-195 | takes the next keyword off a chain, passing over states without one |
| `CompositeStream.LeastHead` | internal/engine/engine_composite.go:308-310 | the least head is the first of all pending matches of all shards |
| `CompositeStream.EmitQueue` | internal/engine/engine_composite.go:319-335 | the heap merge delivers the union's matches at a rune in scan order until the callback stops |
| `CompositeStream.AdvanceShard` | internal/engine/engine_composite.go:206-263 | one rune advances a shard's cursor to the right state, with exactly the keywords ending there |
| `CompositeStream.Contains` | internal/engine/engine_composite.go:145-170 | true if and only if some keyword occurs, and no rune is read past the first match's end |
| `CompositeStream.MatchStream` | internal/engine/engine_composite.go:265-300 | the stream delivers a single engine's matches, and everything at a rune before the next is read |
| `Heaps.RootIsLeast` | pkg/acor/scan.go:225-229 | the first element of a heap is a minimum |
| `Heaps.SiftDown` | pkg/acor/scan.go:279-292 | restores the heap below an element, permuting only |
| `Heaps.Push` | pkg/acor/scan.go:260-269 | adds one element and keeps the heap |
| `Heaps.Pop` | pkg/acor/scan.go:272-294 | removes the least element and keeps the heap |
| `Heaps.Init` | internal/engine/engine_composite.go:320-320 | makes a heap of any slice, permuting only |
| `Selection.FilterWholeWord` | pkg/acor/matches.go:323-333 | keeps exactly the matches bounded by non-word runes or the edges, in order |
| `Selection.BestAtExact` | pkg/acor/scan.go:239-258 | the candidate kept for a start is the longest match there |
| `Selection.GreedyMeaning` | pkg/acor/matches.go:291-293 | the selection is disjoint and increasing, and every match left out is dominated by a selected one |
| `Selection.SelectionUnique` | pkg/acor/matches.go:291-293 | no other list of given matches is disjoint and dominates all the others, so this is what leftmost-longest means |
| `Selection.PickIsGreedy` | pkg/acor/matches.go:284-319 | sort by start and length, then one greedy pass, is the leftmost-longest selection |
| `Selection.LeftmostLongest` | pkg/acor/matches.go:294-319 | sorting and compacting the slice in place leaves exactly the selection at its front |
| `Scan.SourceWindow.Add` | pkg/acor/scan.go:247-270 | past the last kept end the window holds the best candidate of every start seen, each start once, as a heap |
| `Scan.SourceWindow.Pop` | pkg/acor/scan.go:272-294 | removes and returns the candidate with the least start and keeps the heap |
| `Scan.WindowBound` | pkg/acor/scan.go:239-246 | the window never holds more starts than the longest keyword has runes |
| `Scan.NextSelected` | pkg/acor/scan.go:225-237 | once nothing to come starts so early, the least candidate is the next match of the selection |
| `Scan.SourceScanner.Append` | pkg/acor/scan.go:209-217 | refuses exactly at the limit, and then marks the result truncated |
| `Scan.SourceScanner.TakeLeast` | pkg/acor/scan.go:229-236 | a candidate that overlaps the last kept match is dropped, any other is the next of the selection |
| `Scan.SourceScanner.Flush` | pkg/acor/scan.go:218-238 | takes every settled candidate; the final flush completes the selection |
| `Scan.SourceScanner.Next` | pkg/acor/scan.go:171-184 | flushes, then hands out the next rune unless stopped or at the end |
| `Scan.SourceScanner.Emit` | pkg/acor/scan.go:185-204 | counts the candidate, stops past the budget, filters by whole word, and keeps the scan's invariant |
| `Scan.ScanSource` | pkg/acor/scan.go:138-164 | without an error the matches are the first MaxMatches of filter, sort and greedy selection, truncated if and only if more exist; an error means the candidate budget was exceeded |
| `Scan.SelectedMeaning` | pkg/acor/scan.go:185-238 | a scan selects from exactly the eligible occurrences: all of them in reference order, or the disjoint ones that dominate the rest |
| `Scan.FindMatches` | pkg/acor/matches.go:101-158 | collecting, filtering and sorting gives the reference selection over all occurrences |
| `Scan.ScanBesideFindMatches` | pkg/acor/scan.go:68-80 | a scan that succeeds returns the first MaxMatches of FindMatches, truncated if and only if FindMatches has more |
| `CompositeScan.ScanComposite` | pkg/acor/scan.go:83-89 | over a composite of shards the bounded scan gives what it gives over one engine of the union |
| `Parallel.FindBoundary` | pkg/acor/parallel.go:64-71 | the nearest boundary within the backtrack window, or the target when there is none |
| `Parallel.SplitAutoChunks` | pkg/acor/parallel.go:240-258 | terminates with chunks that own consecutive ranges covering the text, each at most the chunk size and all but the last at least half of it, and extend far enough for the longest keyword |
| `Parallel.OwnerOf` | pkg/acor/parallel.go:240-258 | every position has exactly one owning chunk |
| `Parallel.OwnedOccurrence` | pkg/acor/parallel.go:240-258 | an occurrence starting in a chunk's own range lies wholly in its text, and nothing else is found there |
| `Parallel.ScanChunk` | pkg/acor/context_ops.go:241-251 | a chunk reports exactly the occurrences that start in its own range |
| `Parallel.MergeIndexResults` | pkg/acor/parallel.go:215-238 | the merged map lists exactly the shifted offsets of all chunks, sorted |
| `Parallel.FindIndexParallel` | pkg/acor/context_ops.go:217-260 | for every text, chunk size, boundary kind, overlap and rune-wise fold, the map is that of one serial scan |
| `TriePlan.ComputeOutputs` | pkg/acor/v2_plan.go:172-197 | the state when it is a keyword, then its live proper suffixes that are keywords, longest first |
| `TriePlan.OutputsAreSuffixes` | pkg/acor/v2_plan.go:169-197 | with every keyword a live prefix, these are all keywords that end the state |
| `TriePlan.PlanAddMany` | pkg/acor/v2_plan.go:35-98 | the keywords afterwards are the old ones, in place, and the non-empty new ones of the batch; the prefixes are exact and the returned lists are those of the result |
| `TriePlan.PlanRemoveMany` | pkg/acor/v2_plan.go:112-167 | the keywords afterwards are the old ones, in order, without the batch; the prefixes are exact and the returned lists are those of the result |
| `TriePlan.AddOk` | pkg/acor/v2_plan.go:35-98 | the stored prefixes stay exactly those of the stored keywords |
| `TriePlan.RemoveOk` | pkg/acor/v2_plan.go:112-167 | the stored prefixes stay exactly those of the stored keywords |
| `TriePlan.DeltaCompletes` | pkg/acor/v2_plan.go:77-94 | an add's delta, written over the old outputs hash, gives all lists of the new snapshot |
| `TriePlan.FullIsFull` | pkg/acor/v2_plan.go:144-162 | the planned lists are what a full recomputation gives |
| `TriePlan.BatchIsFold` | pkg/acor/v2_plan.go:30-34 | planning a batch gives the same keyword and prefix lists as folding the single-keyword plan |
| `TriePlan.BatchHashIsFold` | pkg/acor/v2_plan.go:32-34 | applied to a complete outputs hash, the batch's delta leaves the same hash as the single-keyword deltas in turn: the full one of the new keywords |
| `TriePlan.RemoveUndoesAdd` | pkg/acor/v2_plan.go:100-167 | removing what was just added restores keywords and prefixes exactly, in order, and the full outputs hash |
| `TriePlan.OutputsHoldTheKeywords` | pkg/acor/cache.go:21-36 | the union of all output lists is exactly the keyword set |
| `TrieStore.StepKeeps` | pkg/acor/v2_lua.go:20-50 | every read, commit and flush keeps stored data consistent and current plans based on it |
| `TrieStore.CommitActsOnCurrent` | pkg/acor/v2_transaction.go:117-145 | a commit whose version is current leaves what is stored at that moment plus or minus the batch, so no write is lost; one whose version has moved leaves the database alone |
| `TrieStore.WriteIsAtomic` | pkg/acor/v2_transaction.go:117-145 | from read to commit, in every run: the batch is applied to what is stored if and only if the database did not change in between |
| `TrieStore.VersionsDoNotReturn` | pkg/acor/v2_lua.go:20-50 | a version is current again only if the database never changed |
| `TrieStore.FlushEmpties` | pkg/acor/v2_transaction.go:148-171 | a flush leaves the empty collection under a new version |
| `TrieStore.StoredIndexIsExact` | pkg/acor/v2_transaction.go:117-171 | in every run the prefixes are exact, the outputs hash is a full recomputation, and its values are the keywords |
| `PresetReload.LocalViewIsOneState` | pkg/acor/redis_backed.go:201-236 | in every run version, keyword set and engine describe one committed state, version 0 meaning empty |
| `PresetReload.EqualPollProvesView` | pkg/acor/redis_backed.go:371-387 | a poll with equal versions proves the local view is what Redis held at that read; exactly the others mark it stale |
| `PresetReload.PollDecidesByRedis` | pkg/acor/redis_backed.go:371-387 | in every run, an act on a poll decides by what Redis held when the poll read it: equal versions mean that engine is the local one, different ones leave the view stale |
| `PresetReload.ReloadInstallsOnlyUndisturbed` | pkg/acor/redis_backed.go:201-243 | a reload installs its snapshot if and only if nothing invalidated its captured generation |
| `PresetReload.ReloadInstallsWhatRedisHeld` | pkg/acor/redis_backed.go:201-243 | in every run, a reload installs if and only if no invalidation, announcement, differing poll or other install came since it captured, and then what Redis held at its fetch |
| `PresetReload.WriteInstallsOnlyUndisturbed` | pkg/acor/batch_atomic.go:103-120 | a local write installs its snapshot if and only if nothing happened since it announced itself |
| `PresetReload.WriteInstallsWhatItCommitted` | pkg/acor/batch_atomic.go:103-120 | in every run, a local write or flush outdates the view when it announces itself, and installs if and only if undisturbed, and then what it committed |
| `PresetReload.StaleUntilInstalled` | pkg/acor/redis_backed.go:351-356 | an invalidated view stays stale, with its engine, until something is installed |
| `PresetReload.RedisHoldsTheLastWrite` | pkg/acor/v2_lua.go:27-37 | polls and fetches find what was written last |
| `PresetReload.StepKeeps` | pkg/acor/redis_backed.go:201-243 | every critical section and Redis call keeps the invariant, with any number of operations in flight |
| `VersionedSteps.StepKeeps` | pkg/acor/versioned_snapshot.go:33-128 | every action of readers, writers, pruners and instances keeps the store's invariant |
| `VersionedSteps.CommitKeeps` | pkg/acor/versioned_write.go:39-56 | a commit keeps it: the new generation is complete, in the chain and recorded |
| `VersionedSteps.StageKeeps` | pkg/acor/versioned_write.go:29-38 | fenced staging keeps it, by live and by expired writers |
| `VersionedSteps.MaintainKeeps` | pkg/acor/versioned_prune.go:39-46 | starting maintenance keeps it: by then every earlier token has run out everywhere |
| `VersionedSteps.GrantKeeps` | pkg/acor/versioned_prune.go:184-199 | granting shard maintenance keeps it |
| `VersionedSteps.ConfirmKeeps` | pkg/acor/versioned_prune.go:200-213 | after the renewal that follows a grant the global key outlives the shard's on every clock |
| `VersionedSteps.MirrorKeeps` | pkg/acor/versioned_shards.go:281-322 | mirroring a writer lease, however late, keeps it |
| `VersionedSteps.DeleteNeedsGlobalToken` | pkg/acor/versioned_prune.go:184-276 | a running pruner that may delete in a shard holds the global token |
| `VersionedSteps.KeptSurvives` | pkg/acor/versioned_prune.go:145-182 | nothing a kept generation reaches is on the list of dead records |
| `VersionedSteps.TargetIntact` | pkg/acor/versioned_write.go:211-236 | an unexpired writer that staged its plan commits a complete generation |
| `VersionedRuns.RunKeeps` | pkg/acor/versioned_prune.go:35-109 | the invariant holds at every moment of every run |
| `VersionedRuns.RetainsReachable` | pkg/acor/versioned_prune.go:35-109 | at every moment the active generation and every generation under an unexpired reader lease have their manifest, shard manifests and chunks, unchanged |
| `VersionedRuns.ReaderNeverLosesData` | pkg/acor/versioned_snapshot.go:70-97 | a lease still valid was valid and its generation complete the whole time since it was opened |
| `VersionedRuns.DeletedUnderBothTokens` | pkg/acor/versioned_prune.go:247-276 | a record disappears only while its namespace's key and the global key both hold the deleting token |
| `VersionedRuns.DeletedGenerationIsOld` | pkg/acor/versioned_prune.go:278-304 | a deleted generation was neither active nor leased and was prepared more than 24 hours ago |
| `VersionedRuns.StageNeverCorrupt` | pkg/acor/versioned_write.go:33-34 | staging never finds other content under a key |
| `VersionedRuns.CommitNeverMissing` | pkg/acor/versioned_write.go:46-46 | a commit never finds its generation missing |
| `VersionedRuns.CommitStep` | pkg/acor/versioned_write.go:39-56 | a step adds at most one commit, whose predecessor was active immediately before and whose sequence is one higher |
| `VersionedRuns.CommitsFormOneChain` | pkg/acor/versioned_write.go:211-236 | in every run the changed commits form one chain with consecutive sequences, and no operation occurs twice |
| `VersionedRuns.RetriesReturnTheReceipt` | pkg/acor/versioned_write.go:264-290 | a retried commit returns the first receipt and changes nothing, even after later commits |
| `VersionedRuns.ServingNeverDecreases` | pkg/acor/versioned.go:271-329 | the sequence an instance serves never decreases over serialized refreshes |
| `VersionedRuns.WaitMeansCommittedOrLater` | pkg/acor/versioned.go:439-465 | after a successful wait the serving generation is the requested commit or a later one of the chain |
| `VersionedRuns.FencesNeverDecrease` | pkg/acor/versioned_shards.go:281-315 | no namespace's fence ever goes back |
| `VersionedLocks.HolderKeepsKey` | pkg/acor/versioned_prune.go:188-199 | a maintenance key stays with its holder until released or expired |
| `VersionedLocks.WritersAndMaintenanceExclude` | pkg/acor/versioned_prune.go:33-34 | in no namespace is a writer lease valid while its maintenance key exists |
| `VersionedLocks.DelayedMirrorRefused` | pkg/acor/versioned_shards.go:281-322 | a deadline read before a maintenance is never mirrored to a shard fenced by it or a later one |
| `VersionedLeases.TimePassesInTicks` | pkg/acor/versioned_snapshot.go:30-31 | every clock moves with time, by the same amount, and no script takes time |
| `VersionedLeases.AcquiredLeaseLasts` | pkg/acor/versioned_snapshot.go:33-69 | a reader lease granted outside maintenance is valid for its whole duration, on the generation then active, with everything that generation reached stored unchanged; in maintenance nothing is granted |
| `VersionedLeases.RenewedLeaseLasts` | pkg/acor/versioned_snapshot.go:91-113 | renewing a valid lease gives it the duration from now; an expired one stays expired |
| `VersionedLeases.PinnedLeaseLasts` | pkg/acor/versioned.go:286-299 | a refresh's pin lasts in the same way |
| `VersionedLeases.UnrenewedLeaseEnds` | pkg/acor/versioned_snapshot.go:33-69 | a lease that is not renewed is invalid after its duration |
| `VersionedLeases.ClosedLeaseStaysClosed` | pkg/acor/versioned_snapshot.go:114-128 | a closed reader lease is never valid again |
| `VersionedLeases.AcquiredWriterLasts` | pkg/acor/versioned_snapshot.go:33-69 | a writer lease is granted exactly outside maintenance and for the active generation, and then keeps maintenance out for its whole duration |
| `VersionedLeases.RenewedWriterLasts` | pkg/acor/versioned_snapshot.go:91-113 | renewing does the same for a valid writer lease, and nothing for an expired one |
| `VersionedLeases.UnrenewedWriterEnds` | pkg/acor/versioned_snapshot.go:33-69 | a writer lease that is not renewed is invalid after its duration |
| `VersionedLeases.ClosedWriterIsGone` | pkg/acor/versioned_snapshot.go:114-128 | closing ends a writer lease or mirror at once, and no other |
| `VersionedLeases.StartedMaintenanceLasts` | pkg/acor/versioned_prune.go:35-62 | maintenance starts exactly when none is under way and no writer is at work, and its token holds the global key for 30 seconds |
| `VersionedLeases.RenewedTokenLasts` | pkg/acor/versioned_prune.go:22-24 | renewing gives the token 30 more seconds; a pruner that lost it stops |
| `VersionedLeases.GrantedShardLasts` | pkg/acor/versioned_prune.go:184-199 | a shard is granted exactly when its fence is not ahead, nobody else holds it and nobody writes there, for 30 seconds of its clock |
| `VersionedLeases.UnrenewedKeyEnds` | pkg/acor/versioned_prune.go:35-62 | a key that is not renewed ends after 30 seconds |
| `VersionedLeases.ReleaseFrees` | pkg/acor/versioned_prune.go:57-58 | releasing frees the namespace if the token still holds it, and changes nothing otherwise |
| `VersionedLeases.DeadlineIsTheLease` | pkg/acor/versioned_shards.go:287-299 | what is read for a mirror is the writer's own deadline and the fence of that moment |
| `VersionedLeases.MirrorMakesWriter` | pkg/acor/versioned_shards.go:300-315 | a mirror makes the operation a writer of the shard until that deadline and raises the fence, or is refused and changes nothing |
| `VersionedEffects.StageTakesEffect` | pkg/acor/versioned_write.go:29-38 | a record is staged exactly under a valid lease, and is then stored as planned and registered, a generation at its first registration time |
| `VersionedEffects.CommitAnswers` | pkg/acor/versioned_write.go:41-47 | a new operation commits exactly while its lease is valid and its expected generation active; each refusal has its exact condition |
| `VersionedEffects.CommitTakesEffect` | pkg/acor/versioned_write.go:48-56 | a new receipt means that what it names is active, next in the chain, recorded and registered now; any other answer changes nothing |
| `VersionedEffects.WriteArrives` | pkg/acor/versioned_write.go:157-236 | in every run, a write that acquired, planned, staged and commits in time activates its complete generation with the planned documents and counts, unless another commit came first, and then changes nothing |
| `VersionedEffects.UnchangedWriteArrives` | pkg/acor/versioned_write.go:157-236 | a write that changed nothing gets an empty receipt and leaves the active generation |
| `VersionedEffects.StartedProcessIsIdle` | pkg/acor/versioned.go:271-299 | a new process serves nothing and can pin |
| `VersionedEffects.RefreshServesWhatItPinned` | pkg/acor/versioned.go:271-329 | in every run, an installed refresh serves the generation that was active when it pinned; one given up leaves what was served |
| `VersionedPruning.ReferencesAreExact` | pkg/acor/versioned_prune.go:145-168 | what a pruner has collected is exactly what the kept generations reach |
| `VersionedPruning.KeepsExactly` | pkg/acor/versioned_prune.go:278-304 | the generations kept are exactly the active one, those leased beyond the starting second, and those registered within the 86400 seconds before it |
| `VersionedPruning.ListIsExact` | pkg/acor/versioned_prune.go:170-182 | of what is stored in a namespace, exactly the records that no kept generation reaches are listed as dead |
| `VersionedPruning.SweepLeavesExactlyTheWanted` | pkg/acor/versioned_prune.go:215-276 | a namespace held since its listing, with everything listed deleted, holds exactly what was stored then and is reached by a kept generation |
| `VersionedPruning.PruneLeavesExactlyTheKept` | pkg/acor/versioned_prune.go:35-109 | from start to sweep, a stored generation remains if and only if it is active, leased or at most 24 hours old |
| `VersionedExample.SomePruneDeletes` | pkg/acor/versioned_prune.go:35-109 | a run in which a write is committed and a day later the superseded generation is deleted |
| `VersionedPreparations.NoLateRegistration` | pkg/acor/versioned_prune.go:111-114 | in every run, an operation that left its lease to run out stages nothing during global maintenance in a shard whose clock is not behind the global one |
| `VersionedPreparations.SafeIffNotBehind` | pkg/acor/versioned_prune.go:111-114 | no run lets an expired preparation register data in a shard during global maintenance, if and only if the shard's clock is not behind the global one |
| `VersionedPreparations.SlowShardRegisters` | pkg/acor/versioned_prune.go:111-114 | for every shard with a clock behind the global one, a run in which an expired preparation does register data |
| `VersionedPreparations.ClosedLeaseRegisters` | pkg/acor/versioned_snapshot.go:114-128 | for any clocks, a run in which the mirror of a lease closed early arrives during maintenance and lets data be registered |
| `BucketStorage.ReadBucket` | pkg/acor/versioned_snapshot.go:243-273 | returns words if and only if the bucket's chunks, count, digest and order all agree on them |
| `BucketStorage.MakeBucket` | pkg/acor/versioned_write.go:416-449 | the chunks concatenate to the words; every chunk of several words fits in 1 MiB, and none but the last has room for the next word |
| `BucketStorage.ChunksRoundTrip` | pkg/acor/versioned_write.go:416-449 | chunking, staging in any namespace and reading back is the identity |
| `BucketStorage.ApplyWords` | pkg/acor/versioned_write.go:291-323 | Add is the union, Remove the difference and Replace the new set, with exact counts |
| `BucketStorage.Normalize` | pkg/acor/versioned_snapshot.go:338-354 | refuses exactly when a folded keyword is empty, else lists the folded keywords once each, in order |
| `Dictionaries.ChangeBuckets` | pkg/acor/versioned_write.go:157-210 | bucket by bucket or as a whole, Add is the union, Remove the difference and Replace the new set, with exact counts |
| `Dictionaries.TotalIsSize` | pkg/acor/versioned.go:493-509 | the stored counts add up to the size of the dictionary |
| `Manifests.ShardCountTestExact` | pkg/acor/versioned_shards.go:32-34 | the bit test accepts exactly the powers of two from 1 to 256 |
| `Manifests.MakeShardDoc` | pkg/acor/versioned_write.go:246-254 | a shard manifest lists exactly its non-empty buckets and their total |
| `Manifests.DecodeShard` | pkg/acor/versioned_shards.go:246-267 | accepts a shard manifest if and only if every entry is valid and the counts agree, and then places its buckets |
| `Manifests.LoadShards` | pkg/acor/versioned_shards.go:199-244 | what it accepts matches the shard manifests and adds up, and matching manifests are accepted |
| `Manifests.LoadManifest` | pkg/acor/versioned_shards.go:167-197 | what is loaded adds up, and a stored manifest is loaded back exactly |
| `Manifests.CheckCounts` | pkg/acor/versioned.go:493-509 | accepts a plain manifest if and only if no count is negative and they add up |
| `Manifests.NextManifest` | pkg/acor/versioned_write.go:238-262 | new documents for the changed shards, old ids for the others |
| `Manifests.GroupIsTotal` | pkg/acor/versioned_shards.go:199-244 | counting shard by shard counts every bucket once |
| `VersionedWrites.CountIsDictionarySize` | pkg/acor/versioned_write.go:211-217 | a generation's count is the size of its dictionary |
| `VersionedWrites.ChangeCollection` | pkg/acor/versioned_write.go:157-236 | committing and reloading gives union, difference or replacement of the dictionary, with Count, Added and Removed conserved and the next sequence; a write that changes nothing keeps the version |
| `VersionedWrites.Reshard` | pkg/acor/versioned_write.go:85-148 | between any two power-of-two layouts the reloaded generation holds the same keywords, bucket by bucket |
| `WritePlans.CreatedEncodes` | pkg/acor/versioned_shards.go:110-141 | a created collection's documents encode the empty first generation in its layout |
| `WritePlans.WriteIsPlan` | pkg/acor/versioned_write.go:211-236 | whatever a written generation reaches is staged with it or reached by the expected generation, as the store's transition system demands of a plan |
| `WritePlans.WriteEncodes` | pkg/acor/versioned_write.go:211-236 | with its new documents added, the store's documents encode the new generation |
| `WritePlans.WritesStayEncoded` | pkg/acor/versioned_write.go:157-236 | after any number of writes, each from any earlier generation, every generation is encoded and every write was planned as demanded |
| `WritePlans.PlannedChange` | pkg/acor/versioned_write.go:157-236 | an add, remove or replace makes such a plan, and afterwards the reloaded and the encoded generation agree |
| `WritePlans.PlannedReshard` | pkg/acor/versioned_write.go:85-148 | so does a reshard to any layout |
| `Refresh.ShardsSplit` | pkg/acor/versioned_reuse.go:48-88 | the shard engines' dictionaries split the generation's, as the composite requires |
| `Refresh.EngineBuckets` | pkg/acor/versioned_reuse.go:15-44 | cached and downloaded buckets together are the generation's words, if each bucket was there when it was read |
| `Refresh.PinnedIsEnough` | pkg/acor/versioned_reuse.go:15-44 | for that it is enough that the pinned generation's own chunks stay while the refresh reads |
| `Refresh.ReusedShard` | pkg/acor/versioned_reuse.go:90-94 | a shard engine reused by manifest id has the dictionary a new build would have |
| `Refresh.BuildGeneration` | pkg/acor/versioned_reuse.go:48-88 | with any reuse the result is a build from scratch |
| `Refresh.ShardWords` | pkg/acor/versioned_reuse.go:96-106 | the stride visits exactly the shard's buckets |
| `Refresh.VersionedCollection.Refresh` | pkg/acor/versioned.go:271-329 | a failed refresh leaves the installed engine; a successful one installs the words of the pinned generation, whole and by shard, as a build from scratch would, whatever else in the store changes between its reads |

## Left out

- HTTP, gRPC, metrics, logging, command line and health code: adapters without hard state.
- Redis client construction, topology, failover and data loss: only the atomic scripts and transactions are modelled.
- A pruner's command that Redis executes after its client has given up on it: the client is sequential, and a lost command either happened or did not.
- Sub-millisecond clock phases: node clocks are whole milliseconds at constant distance, so the two deadlines of a grant and its renewal are compared exactly.
- Creation of a collection, V2 and versioned alike: the models start from an initialised empty collection.
- 32-bit overflow of the double array's base, check, fail and depth entries: integers are unbounded, as memory runs out first.
- The size and hash formulas of the Bloom filter: the number of bits and hashes and the hash itself are arbitrary, and no false negative depends on them.
- Keywords with invalid UTF-8 that collide on one rune path: keywords are rune sequences; a text may hold stray bytes.
- Case folding tables, Unicode classes and whitespace trimming: a rune-wise fold and predicates on runes are parameters.
- Byte offsets and substrings of scan results: they are read off the rune offsets.
- The order in which keywords, runes or map entries are visited: models take any order, and no result depends on it.
- Build guards, contexts, worker limits, memory estimates, statistics and debounce timers: they do not affect results.
- FindParallel's keyword list and the legacy overlap splitter splitChunks: the first adds only an easy member, the second is documented to miss long keywords.
- Freshness of the V2 trie cache: the cache is marked valid without regard to invalidations during the fetch, so no freshness property is decided by that code.
- The layout fields of the meta hash and the event published at a commit: nothing modelled reads them.
- Snapshot.List, Diff and CopyV2: paging and comparison over buckets whose reading is modelled.
- Engine memo digests, V1 operations, V1 migration, benchmarks and tools: plumbing or reporting.
- Composite concurrency: shards are visited one after the other, since each writes its own slot.
