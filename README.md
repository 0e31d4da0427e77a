# ED Massacre Mission Candidate Finder, modelled in Dafny

This project models the sequential core of the massacre-mission candidate finder for Elite: Dangerous. The finder reads a dump of populated star systems. It ranks each system as a destination for stacked massacre missions. A good destination has exactly one anarchy faction, many distinct sourcing factions within 10 light years and rings. It has few systems reachable from its sources that lie outside its own 10 light-year sphere.

The model covers five parts, one module each:

- **`Splitter`** (`splitter.dfy`) models `buildSystemData`. It is a character-level automaton with a wrapper flag, a depth counter and a fixed rune buffer with a write pointer. The automaton cuts the top-level JSON array into one chunk per element. Each chunk goes to the decoder. Decoded records are linked into a singly linked list, which is finally copied into an array.
  - The automaton is specified by the pure functions `Step`, `Run` and `Scan`. The class `ElementSplitter` is proved to implement them.
  - A round trip is proved: an array of N elements splits into exactly those N elements, in order.
- **`Normaliser`** (`normaliser.dfy`) models `buildSystem`. It does five things:
  - filters the stations by service, distance and type;
  - sorts the kept stations by distance;
  - partitions the factions into anarchy and non-anarchy;
  - maps the security label to a code;
  - counts the ringed bodies.
- **`SectorIndex`** (`sector_index.dfy`) models `buildSector`, `BuildSector` and `BuildSectoredData`, which build the spatial index of 10-unit cubes.
- **`Neighbourhood`** (`neighbourhood.dfy`) models the 10 light-year query: `getAllPopulatedSystemsIn10LyRadius`, `appendSystems`, `sysDistanceSquared` and `buildSectorCube`.
- **`Evaluation`** (`evaluation.dfy`) models `EvaluateSystem`: the filters, the external lookup and the score.
- **`MassacreFinder`** (`massacre_finder.dfy`) is the sequential view of the main routine. It collects results over the index, sorts them by descending score and clamps the display count.

Two helper modules support them:

- `Sorting` holds the in-place insertion sort that both `sort.Slice` calls stand for.
- `Collecting` holds the order-independence of an append-to-results loop.
- `Types` holds the records.

Every loop of the source is a method proved against a specification function of its inputs. For example, `BuildSectoredData` returns `IndexOf(built)` and `EvaluateSystem` returns `Evaluate(...)`. The properties the source promises are proved as lemmas about those functions.

## Model

| member | source | states |
|---|---|---|
| Splitter.DecodeAll | dataBuilder/data_builder.go:166-188 | Decoding keeps the successfully decoded chunks in stream order. There are never more records than chunks, and exactly one per chunk when all decode. |
| Splitter.StepCoherent | dataBuilder/data_builder.go:130-165 | One character of the read loop keeps the automaton coherent: the depth equals the buffer's net bracket depth, and the buffer is empty exactly at depth 0. Emitted chunks are element-shaped, and the peak occupancy never shrinks. |
| Splitter.RunCoherent | dataBuilder/data_builder.go:122-192 | Every state reached from the start is coherent, and the peak never shrinks. |
| Splitter.ChunksAreElements | dataBuilder/data_builder.go:141-165 | Every emitted chunk is non-empty and balanced, ends at the first return to depth 0, and fitted in the buffer. |
| Splitter.PeakMonotone | dataBuilder/data_builder.go:157-158 | The buffer occupancy needed for a prefix of the input never exceeds that for the whole input. |
| Splitter.BeforeWrapperIgnored | dataBuilder/data_builder.go:137-139 | Characters before the first `[` change nothing. |
| Splitter.WrapperOpened | dataBuilder/data_builder.go:130-132 | The first `[` only opens the wrapper and is not buffered. |
| Splitter.SeparatorSkipped | dataBuilder/data_builder.go:149-152 | Bracket-free text between elements, at depth 0 with an empty buffer, is dropped. |
| Splitter.ElementPrefix | dataBuilder/data_builder.go:141-158 | A proper prefix of an element only fills the buffer and raises the depth. |
| Splitter.ElementEmitted | dataBuilder/data_builder.go:149-165 | A whole element after a separator is emitted as exactly one chunk. |
| Splitter.LayoutRun | dataBuilder/data_builder.go:122-192 | A sequence of separated elements is emitted element by element, in order. |
| Splitter.SplitRoundTrip | dataBuilder/data_builder.go:100-211 | The round trip: a preamble, `[`, N separated elements and `]` split into exactly those N elements. The peak buffer need is the longest element, or 1 for the buffered closing bracket. |
| Splitter.SystemList.constructor | dataBuilder/data_builder.go:112-114 | The list starts empty. |
| Splitter.SystemList.Append | dataBuilder/data_builder.go:176-187 | Appending links the new entry after the last one. The contents become the old contents plus the value. |
| Splitter.SystemList.ToArray | dataBuilder/data_builder.go:197-210 | The pointer walk copies the list into an array of the counted length, in list order. |
| Splitter.CopyPrefix | dataBuilder/data_builder.go:161-164 | The copy loop returns exactly the first `n` buffered characters. |
| Splitter.ElementSplitter.constructor | dataBuilder/data_builder.go:116-120 | The splitter starts in the automaton's start state with a buffer of the given capacity. |
| Splitter.ElementSplitter.Feed | dataBuilder/data_builder.go:130-165 | Feeding a character overflows exactly when the automaton's buffer would exceed the capacity. Otherwise the new state is the automaton's `Step`, and the completed element, if any, is the one chunk the step emits. |
| Splitter.Collect | dataBuilder/data_builder.go:166-188 | A completed element is decoded. On success it is counted and linked after the others. On failure nothing changes. |
| Splitter.ReadRune | dataBuilder/data_builder.go:123-191 | One iteration of the read loop keeps the list equal to the decoded chunks so far and the counter equal to its length. |
| Splitter.BuildSystemData | dataBuilder/data_builder.go:100-211 | The overflow case happens exactly when the input needs more buffer than the capacity. Otherwise the result is the decoded elements in stream order. |
| Splitter.SplitSystemData | dataBuilder/data_builder.go:100-211 | With the source's fixed buffer of 30 000 000 runes: overflow exactly when the input needs more, otherwise the decoded elements in stream order. |
| Normaliser.RelevantStationTypes | dataBuilder/data_builder.go:321-330 | The four base types are always relevant. "Planetary Outpost" is relevant iff ground bases are considered, and "Settlement" iff Odyssey settlements are. Nothing else is relevant. |
| Normaliser.SecurityLevel | dataBuilder/data_builder.go:371-386 | "Anarchy", "Low", "Medium" and "High" map to 0 to 3. Every other label maps to 127, and 127 is returned exactly for other labels. |
| Normaliser.KeptStationsExactly | dataBuilder/data_builder.go:305-353 | A station is kept exactly when some own station of the system has "Missions", lies within the maximum distance and has a relevant type. |
| Normaliser.PartitionExhaustive | dataBuilder/data_builder.go:360-369 | The anarchy and non-anarchy names together are all faction names, as a multiset, and their counts add up. |
| Normaliser.PartitionPlacesEach | dataBuilder/data_builder.go:360-369 | Each faction's name lands in the anarchy list iff its government is "Anarchy", and in the other list otherwise. |
| Normaliser.RingQtyCountsRingedBodies | dataBuilder/data_builder.go:388-393 | The ring count is the number of bodies with at least one ring. |
| Normaliser.Contains | dataBuilder/data_builder.go:308-313 | The service scan finds a value iff it is in the list. |
| Normaliser.GatherJsonStations | dataBuilder/data_builder.go:296-303 | The gathering loop yields the own stations followed by every body's stations. |
| Normaliser.FilterStations | dataBuilder/data_builder.go:305-353 | The filter loop yields the converted kept stations of `data.Stations`, in input order. |
| Normaliser.SplitFactions | dataBuilder/data_builder.go:360-369 | The faction loop yields the anarchy names, the other names and their counts. |
| Normaliser.CountRings | dataBuilder/data_builder.go:388-393 | The ring loop yields the ring count. |
| Normaliser.BuildSystem | dataBuilder/data_builder.go:282-396 | The result has the same id, name and coordinates. Its stations are sorted by distance and are a permutation of the kept stations. Its name lists match the partition with counters equal to their lengths, and its security level and ring count are as specified. |
| SectorIndex.SectorCoord | dataBuilder/data_builder.go:266-276 | The grid coordinate is the sector whose 10-unit slab holds the position. |
| SectorIndex.SectorOf | dataBuilder/data_builder.go:266-276 | The sector is the one whose 10-unit cube holds the position, on every axis. |
| SectorIndex.BuildSector | dataBuilder/data_builder.go:278-280 | The sector of a normalised system is the one whose cube holds its position. |
| SectorIndex.SectorCoordUnique | dataBuilder/data_builder.go:266-276 | That slab is unique. |
| SectorIndex.BuildSectorAgrees | dataBuilder/data_builder.go:278-280 | A normalised system lies in the sector its raw record was filed under. |
| SectorIndex.NearbySectors | dataBuilder/data_builder.go:266-276 | Two positions at most 10 apart on an axis are in the same or adjacent slabs. |
| SectorIndex.InSector | dataBuilder/data_builder.go:252-258 | A sector's list holds exactly the systems in that sector. |
| SectorIndex.IndexOfSnoc | dataBuilder/data_builder.go:252-258 | Filing one more system appends it to its own sector's list and to no other. |
| SectorIndex.IndexFilesEach | dataBuilder/data_builder.go:248-264 | Every system is filed under its own sector only. |
| SectorIndex.IndexCoversInput | dataBuilder/data_builder.go:248-264 | Walking every sector of the index once meets each input system exactly as often as it occurs. |
| SectorIndex.FileRecord | dataBuilder/data_builder.go:253-258 | One iteration normalises the record and files it under the sector of its raw coordinates. |
| SectorIndex.BuildSectoredData | dataBuilder/data_builder.go:248-264 | The index is the index of the normalised records, one per input record, in input order within each sector. |
| Neighbourhood.SysDistanceSquared | evaluation/systemEvaluation.go:173-179 | The squared distance is never negative. |
| Neighbourhood.DistanceSymmetric | evaluation/systemEvaluation.go:173-179 | The squared distance is symmetric. |
| Neighbourhood.AxisBound | evaluation/systemEvaluation.go:163 | Within the radius, two systems are at most 10 apart on each axis. |
| Neighbourhood.BuildSectorCube | evaluation/systemEvaluation.go:181-220 | The cube has 27 sectors with the own sector in the middle. |
| Neighbourhood.CubeIsNeighbourhood | evaluation/systemEvaluation.go:181-220 | The cube is exactly the sectors at most one step away on every axis. |
| Neighbourhood.CubeDistinct | evaluation/systemEvaluation.go:181-220 | No sector is listed twice. |
| Neighbourhood.InRange | evaluation/systemEvaluation.go:155-171 | The in-range filter keeps exactly the systems with another id and squared distance at most the radius squared. |
| Neighbourhood.NeighboursInExactly | evaluation/systemEvaluation.go:144-150 | The query over a list of sectors finds exactly the in-range systems of the populated ones. |
| Neighbourhood.QuerySound | evaluation/systemEvaluation.go:137-171 | On any index, the query returns only systems with another id within 10 light years, the boundary included. |
| Neighbourhood.QueryExact | evaluation/systemEvaluation.go:137-171 | On the index of a list, the query returns exactly that list's systems with another id within 10 light years. |
| Neighbourhood.QuerySymmetric | evaluation/systemEvaluation.go:137-171 | On such an index, `a` finds `c` iff `c` finds `a`. |
| Neighbourhood.AppendSystems | evaluation/systemEvaluation.go:155-171 | The loop appends the in-range systems, in order, to the old list. |
| Neighbourhood.GetAllPopulatedSystemsIn10LyRadius | evaluation/systemEvaluation.go:137-153 | The loop returns the query result, sector by sector. |
| Evaluation.RingSeedIncreasing | evaluation/systemEvaluation.go:32-36 | The ring seed `2 - 1/rings` lies in [1, 2) and grows strictly with the ring count. |
| Evaluation.AddFarKeys | evaluation/systemEvaluation.go:67-71 | The lookup gains exactly the ids of the far candidates. |
| Evaluation.ExternalLookupIsExternal | evaluation/systemEvaluation.go:62-72 | Every external entry is filed under its own id and lies more than 10 light years from the candidate. So neither the candidate nor any sourcing system is among them. |
| Evaluation.ExternalLookupComplete | evaluation/systemEvaluation.go:62-72 | Every far neighbour of a sourcing system has its id in the lookup. |
| Evaluation.AddFarSound | evaluation/systemEvaluation.go:67-71 | Every entry after the pass is either the entry that was there before or one of the candidates walked. |
| Evaluation.ExternalLookupSound | evaluation/systemEvaluation.go:62-72 | Every entry of the lookup is a neighbour of some sourcing system: the lookup is filled from the sourcing systems' neighbours only. |
| Evaluation.SumAnarchyPick | evaluation/systemEvaluation.go:79-82 | The external anarchy sum does not depend on the order the map is walked in. |
| Evaluation.TallyCounts | evaluation/systemEvaluation.go:104-115 | The tally has one entry per distinct non-anarchy faction name, holding its number of occurrences. |
| Evaluation.DistinctFactions | evaluation/systemEvaluation.go:104-125 | The sourcing faction count is the number of distinct names. |
| Evaluation.SumRewardPick | evaluation/systemEvaluation.go:117-119 | The reward sum does not depend on the order the map is walked in. |
| Evaluation.RewardBounds | evaluation/systemEvaluation.go:117-119 | Each sourcing faction adds between 1 and 2 to the score. |
| Evaluation.EvaluateExternalExactly | evaluation/systemEvaluation.go:84-90 | The external filters accept exactly when both the count and the anarchy sum are within their limits. |
| Evaluation.AcceptedExactly | evaluation/systemEvaluation.go:21-135 | A system is accepted iff it passes all six filters. |
| Evaluation.AcceptedFields | evaluation/systemEvaluation.go:122-134 | An accepted result records its system, name, anarchy faction, rings, sourcing list and size, and external count and anarchy sum. |
| Evaluation.AcceptedScore | evaluation/systemEvaluation.go:92-125 | The sourcing faction count is the number of distinct names. The score minus the ring seed plus the penalties lies between one and two per sourcing faction. |
| Evaluation.CountSourcing | evaluation/systemEvaluation.go:47-56 | The loop counts the stations strictly nearer than the limit and sums the anarchy factions. |
| Evaluation.InsideAnarchyCount | evaluation/systemEvaluation.go:94-98 | The loop sums the sourcing systems' anarchy factions. |
| Evaluation.BuildExternalLookup | evaluation/systemEvaluation.go:62-72 | The nested loop builds the external lookup. |
| Evaluation.CountOutside | evaluation/systemEvaluation.go:74-82 | In any map order, the loop counts the entries and sums their anarchy factions. |
| Evaluation.CountNames | evaluation/systemEvaluation.go:107-114 | The inner loop extends the tally by one system's names. |
| Evaluation.TallyNonAnarchyFactions | evaluation/systemEvaluation.go:104-115 | The nested loop computes the tally of all sourcing names. |
| Evaluation.AddRewards | evaluation/systemEvaluation.go:117-119 | In any map order, the loop adds the reward sum to the score. |
| Evaluation.ScoreAccepted | evaluation/systemEvaluation.go:92-134 | A candidate that passed every filter gets the specified result record. |
| Evaluation.ScoreCandidate | evaluation/systemEvaluation.go:62-134 | After the lookup, the candidate is relevant exactly when the external filters accept it, with the specified result. Otherwise the zero result comes back. |
| Evaluation.EvaluateSystem | evaluation/systemEvaluation.go:21-135 | The system is relevant exactly when `Evaluate` accepts it. The result is then the accepted record, and otherwise the zero result. |
| MassacreFinder.AcceptedOfPermutation | massacre-finder.go:39-55 | The order in which the systems are submitted does not change which results are collected. |
| MassacreFinder.NoZeroAccepted | massacre-finder.go:45-50 | No relevant system yields the zero-valued result. |
| MassacreFinder.NegativeRanksBelowPadding | massacre-finder.go:37-62 | After sorting, a result with a negative score comes after every zero-valued entry. |
| MassacreFinder.EvaluateSector | massacre-finder.go:40-54 | The inner loop appends the results of the relevant systems of one sector list, in order. |
| MassacreFinder.VisitSector | massacre-finder.go:39-55 | One pass of the outer loop appends one sector's results. |
| MassacreFinder.CollectResults | massacre-finder.go:39-55 | In whatever order the map yields its sectors, every sector is visited once. The results are those of the systems walked. |
| MassacreFinder.SortResults | massacre-finder.go:60-62 | The sort leaves the scores non-increasing and is a permutation. |
| MassacreFinder.ClampDisplay | massacre-finder.go:64-67 | The display count is the smaller of the result count and 10. |
| MassacreFinder.Rank | massacre-finder.go:37-67 | The ranking is a permutation of the padding plus the collected results, sorted by descending score, with the display clamped. |
| MassacreFinder.FindCandidates | massacre-finder.go:30-67 | As written: the ranking is a permutation of 100 zero entries plus every relevant system's result. Each normalised system is submitted exactly once. Exactly 100 entries are zero-valued, and the display count is always 10. |
| MassacreFinder.FindCandidatesIntended | massacre-finder.go:30-67 | As intended: the ranking is a permutation of the relevant systems' results alone, with no zero entry. The display count is the smaller of their number and 10. |
| MassacreFinder.MainConfigAccepts | massacre-finder.go:19-28 | With the configuration `main` uses, a system is a candidate exactly when it has one anarchy faction and rings, at least 3 sourcing systems with at least 6 mission stations within 1000 ls, and an empty external lookup. |
| MassacreFinder.RunMain | massacre-finder.go:16-67 | `main` with its own configuration: the 100 zero entries plus every relevant result, sorted by descending score, with 10 entries displayed. |

## Left out

- **File input and the cache.** The file, the `bufio` reader, the cache file and `GetOrCreateSystemData` are left out. `BuildSystemData` takes the file's characters as a sequence.
- **The JSON decoder.** `json.Unmarshal` is the parameter `decode`, and `json.MarshalIndent` is not modelled.
- **Output.** The printing and `buildAndWriteResult` (writing `result.json`) are not modelled.
- **The worker pool and the channel.** The channel used as a mutex around the results is not modelled; the collection is a plain sequential loop. Because collection is order-independent (`AcceptedOfPermutation`), any interleaving of the workers yields the same results as a multiset.
- **Read errors.** `log.Fatalln` on read errors is not modelled.
- Splitter.BuildSystemData: the source's out-of-range write into the 30 000 000-rune buffer is a run-time panic. The model returns `BufferOverflow` instead, at the same input.
- **Floats.** Single-precision floats are `real`. Rounding in the distance and score arithmetic and in `float64(x / SectorSize)` is not modelled. The `SectorCoord` bounds hold exactly only in real arithmetic.
- **8-bit counters.** The faction, ring and security counters are 8-bit signed in the source. The model uses unbounded `int`, so wrap-around above 127 factions or ringed bodies is not modelled.
- Sorting.SortBy: only sortedness and permutation are specified. The unstable tie order of `sort.Slice` is left open.
- Evaluation.CountOutside, Evaluation.AddRewards, MassacreFinder.CollectResults: Go's map iteration order is a free choice. The results are proved the same for every order.
- **Decode failures.** A chunk the decoder rejects is skipped, as in the source, and the decoder's error message is not modelled.
- **Trailing text.** Text after the wrapper array's closing bracket is scanned like any other text: the closing bracket drives the depth to -1 and later characters are buffered. The model states this through `Scan`'s peak, not as a separate property.
- Neighbourhood.SysDistanceSquared: only non-negativity and symmetry are stated. "Zero exactly at equal positions" is not stated.
- Normaliser.BuildSystem: the code gathers the stations of the bodies together with the system's own stations (dataBuilder/data_builder.go:296-303), but the filter that follows walks `data.Stations` only (dataBuilder/data_builder.go:306), so stations on bodies never reach the result. The gathered list (`GatherJsonStations`) is computed and left unused, and the model follows the code.
- Evaluation.TallyNonAnarchyFactions: the code counts occurrences of a faction name across the sourcing systems. It does not count distinct systems, and the model follows the code.

## Findings

| source | as written | input that shows it | evidently intended | confidence | as-written member | corrected member |
|---|---|---|---|---|---|---|
| massacre-finder.go:37 | `make([]evaluation.SystemEvaluationResult, 100)` creates 100 zero-valued results before any real one is appended. They are sorted with the real ones. The display count is therefore always 10, and accepted results with a negative score rank below all 100 blanks. | An index with no accepted system: the display lists 10 blank entries. An accepted system with a negative score: it is ranked at position 100 or later. | An empty list with room for 100 results (`make(..., 0, 100)`), so the ranking holds only real results. | not executed | MassacreFinder.FindCandidates, MassacreFinder.NegativeRanksBelowPadding | MassacreFinder.FindCandidatesIntended |
