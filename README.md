# OpusFilter step engine, modelled in Dafny

OpusFilter runs a YAML-configured list of steps over a directory of
line-aligned bilingual corpus files: downloading a corpus from OPUS,
filtering sentence pairs, concatenating files, sampling a parallel subset,
training n-gram language models and word-alignment priors, scoring pairs,
classifying them and reordering a corpus by rank. This project models the
`OpusFilter` class of `opusfilter/opusfilter.py`:
- the constructor;
- the step dispatcher;
- `execute_steps` and `execute_step`;
- every step handler;
- the helpers `pair_generator`, `get_pairs`, `_get_total_lines` and `_yield_subset`.

How the model is built:
- **Files.** The file system is a map from path to the file's lines. Files
  are filed under a canonical spelling of their path (`Files.Canon`: runs of
  '/' squeezed to one, a leading "./" dropped), so "work//c" and "work/c",
  or "./s" and "s", name the same file, as they do for the operating system.
  Every path a handler builds is canonicalized before it is used. A
  handler is a function from the step's `parameters`, the `overwrite` flag
  and the file system to an `Outcome`. The outcome holds the files left
  behind and how the step ended: `Done`, `Skipped` by the guard, or `Failed`
  with the Python exception. On a failure the files are those at the moment
  of the exception.
- **Write order.** Outputs opened with `'w'` are emptied at the point where
  the code opens them, and inputs are read where the code reads them. So an
  output that is also an input is read back empty whenever the code opens it
  first: always in `filter_data`, `score_data` and `order_by_rank`, which
  open every output before reading, and in `get_subset` for the outputs it
  opens before the input is read.
- **Configuration values.** Values are a small Python value type: `None`,
  booleans, integers, strings, lists and insertion-ordered dictionaries. So
  `parameters['x']`, `.get`, `in`, iteration and truthiness fail or succeed
  exactly where Python does: `KeyError`, `TypeError`, `AttributeError` and so on.
- **Collaborators.** They are the fields of an `Env` value:
  - `FilterPipeline.from_config`, which may reject a configuration with an
    exception, and the `filter`, `filterfalse` and `score` streams of the
    pipeline it builds;
  - `random.sample` after `random.seed`, and `random.shuffle`;
  - the work of `OpusRead`, `lm`, `word_alignment` and `classifier`.

Where a handler loops, a method with loop invariants implements it and is
proved equal to the specification function (`RunFilterData`,
`RunConcatenate`, `RunGetSubset` with `YieldSubset` and `TotalLines`,
`RunScoreData` with `RewriteFilterList` and `JoinInterpolate`, and
`RunExecuteSteps`). What each step promises is proved about those functions.

Modules:
- `PyValues`: Python values and errors.
- `Files`: paths and the file system.
- `PairStream`: `pair_generator`, `get_pairs`.
- `Subset`: `_yield_subset`, `_get_total_lines`.
- `RankOrder`: the sort of `order_by_rank`.
- `ScoreConfig`: the filter-path rewrite of `score_data`.
- `Steps`: the handlers.
- `StepFacts`: what the handlers promise.
- `Executor`: the constructor, `execute_steps` and `execute_step`.
- `ExecutorFacts`: what whole runs promise.

Three behaviours of the code, each proved:
- **Unknown step type.** The type of each step is looked up only when that
  step is reached. An unknown type raises `KeyError` after the earlier steps
  have run and written their files
  (`ExecutorFacts.UnknownTypeAfterEarlierSteps`).
- **Rank order example.** Ranks "3", "1", "2" on lines A, B, C come out as
  A, C, B, the highest rank first (`RankOrder.RankExample`).
- **Rank ties and line counts.** Ties among equal ranks keep their input
  order, because Python's sort is stable (`RankOrder.SortByRankStable`). The
  output has as many rows as the shortest of the three inputs, because `zip`
  stops there (`StepFacts.OrderByRankWrites`).

## Model

| member | source | states |
|---|---|---|
| PyValues.Truthy | opusfilter/opusfilter.py:135 | Python truth value: `None`, `False`, 0, and the empty string, list and dictionary are false, everything else true (a definition) |
| PyValues.AsInt | opusfilter/opusfilter.py:135 | a value takes part in `limit - 1` exactly when it is an int or a bool, and it is non-zero exactly when it is truthy |
| PyValues.Lookup | opusfilter/opusfilter.py:115 | a key is found exactly when the dictionary has it, and the value found is stored under that key |
| PyValues.Subscript | opusfilter/opusfilter.py:115 | `parameters[key]` succeeds exactly on a dictionary with that key, gives a value stored under it, and raises `KeyError(key)` on a dictionary without it |
| PyValues.Get | opusfilter/opusfilter.py:121 | `d.get(key, default)` fails with `AttributeError` exactly on a non-dictionary, gives the default for a missing key and `d[key]` otherwise |
| PyValues.SetKey | opusfilter/opusfilter.py:262-263 | after `d[key] = v`, `key` maps to `v`, every other key maps to what it did, and an existing key keeps its position |
| PyValues.Contains | opusfilter/opusfilter.py:261 | `'priors' in f[name]` on a dictionary tests its keys; it raises `TypeError` exactly on a value that is not a dictionary, list or string |
| PyValues.Iterate | opusfilter/opusfilter.py:145 | `for x in v` visits the items of a list, the keys of a dictionary in order or the characters of a string, and raises `TypeError` on anything else |
| Files.Join | opusfilter/opusfilter.py:115 | `os.path.join(dir, name)` is `name` when it is absolute, and otherwise `dir`, a separator only when needed, then `name` |
| Files.JoinValue | opusfilter/opusfilter.py:115 | joining a configuration value succeeds exactly when it is a string |
| Files.SlashJoin | opusfilter/opusfilter.py:107-110 | the `'{}/{}'` format is always `dir`, one '/', then `name` |
| Files.SlashJoinAgreesWithJoin | opusfilter/opusfilter.py:107-110 | for a relative name under a directory not ending in '/', the format and `os.path.join` give the same path |
| Files.SlashJoinDiffersFromJoin | opusfilter/opusfilter.py:107-110 | for an absolute name, or a directory ending in '/', `get_pairs` spells the path differently from `os.path.join`; by `Files.SlashJoinSameFile` the trailing '/' still names the same file, and by `Files.AbsoluteNameOtherFile` the absolute name names a different one |
| Files.Squeeze | opusfilter/opusfilter.py:107-110 | squeezing the runs of '/' leaves no "//", keeps the first character, and leaves a path without "//" unchanged |
| Files.DropDot | opusfilter/opusfilter.py:297 | dropping leading "./" leaves no "./" prefix, adds no "//", and leaves a path without the prefix unchanged |
| Files.Canon | opusfilter/opusfilter.py:107-110 | the canonical spelling has neither "//" nor a leading "./", and a path that has neither is its own canonical spelling |
| Files.CanonFirst | opusfilter/opusfilter.py:107-110 | canonicalizing keeps the first character of a path that does not start with '.' |
| Files.JoinFile | opusfilter/opusfilter.py:115 | the file `os.path.join(dir, v)` names exists exactly for a string `v`, and is the canonical spelling of the joined path |
| Files.SqueezeSlash | opusfilter/opusfilter.py:107-110 | an extra '/' after a path that already ends in '/' does not change the squeezed path |
| Files.SlashJoinSameFile | opusfilter/opusfilter.py:107-110 | for a relative name under a non-empty directory, the `'{}/{}'` format and `os.path.join` name the same file, even when the directory ends in '/' |
| Files.DotJoinSameFile | opusfilter/opusfilter.py:297 | under the directory '.', `os.path.join` names the same file as the bare name |
| Files.DotJoinSqueezed | opusfilter/opusfilter.py:297 | a relative name joined to '.' keeps exactly one "./" prefix when squeezed |
| Files.AbsoluteNameOtherFile | opusfilter/opusfilter.py:107-110 | for an absolute name and a relative directory, the `'{}/{}'` format names a different file than `os.path.join`, which keeps the absolute name |
| Files.ReadFile | opusfilter/opusfilter.py:146 | opening a file for reading gives its lines exactly when a file is filed under the (canonical) path, and `FileNotFound(path)` otherwise |
| Files.Truncate | opusfilter/opusfilter.py:128-129 | opening files with `'w'` creates or empties exactly those files and leaves every other file as it was |
| PairStream.RStrip | opusfilter/opusfilter.py:103 | `rstrip()` keeps a prefix of the line, ends in a non-space character and drops only whitespace |
| PairStream.TargetLine | opusfilter/opusfilter.py:99-101 | the target line paired with source line i: line i of the target, or '' once the target has run out (a definition, used by `PairStream.PairGenerator`) |
| PairStream.PairGenerator | opusfilter/opusfilter.py:93-103 | one pair per source line: pair i holds the stripped, tokenized source line i and target line i, with '' once the target runs out |
| PairStream.PairPaths | opusfilter/opusfilter.py:105-111 | `get_pairs` names both files `'{output_dir}/{name}'`, in canonical spelling, and fails with `TypeError` for a name that is not a string |
| PairStream.ReadPairs | opusfilter/opusfilter.py:99-103 | reading the pairs fails on the missing source file first, then on the missing target file, and otherwise gives one pair per source line |
| PairStream.ReadPairsRows | opusfilter/opusfilter.py:99-103 | row i of the untokenized pairs is the stripped source line i, and the stripped target line i or '' past the target's end |
| Subset.InsertDesc | opusfilter/opusfilter.py:164 | inserting into a descending list keeps it descending and adds exactly that element |
| Subset.SortDescending | opusfilter/opusfilter.py:164 | `sorted(indices, reverse=True)` is descending and a permutation of the indices |
| Subset.Pops | opusfilter/opusfilter.py:165-170 | repeated `pop()` removes as many elements as the list holds |
| Subset.MatchCount | opusfilter/opusfilter.py:166-172 | the positions the forward pass meets from the j-th on are a run of the pending list, each at or beyond the pass's current item and before the end of the input |
| Subset.Extracted | opusfilter/opusfilter.py:159-172 | the lines `_yield_subset` yields (a definition; `Subset.ExtractSample` states that they are the lines at the sampled positions, in ascending order) |
| Subset.Consumed | opusfilter/opusfilter.py:159-172 | how many lines `_yield_subset` reads before it returns (a definition; `Subset.ConsumedAll` and `Subset.ConsumedShort` state its value) |
| Subset.YieldSubset | opusfilter/opusfilter.py:159-172 | the `_yield_subset` loop yields `Extracted(items, indices)` and reads `Consumed(items, indices)` items |
| Subset.PopStep | opusfilter/opusfilter.py:169-170 | popping the next pending position keeps the pending stack in step with the ascending order |
| Subset.MatchStep | opusfilter/opusfilter.py:166-168 | meeting a pending position counts it once and moves the pass past it |
| Subset.EmitStep | opusfilter/opusfilter.py:167-168 | yielding the item at the current position keeps the output equal to the items at the met positions |
| Subset.ConsumedAll | opusfilter/opusfilter.py:169-172 | a pass that met every position stops reading right after the last one |
| Subset.ConsumedShort | opusfilter/opusfilter.py:166-172 | a pass that missed some position reads the whole input |
| Subset.ExtractedFrom | opusfilter/opusfilter.py:159-172 | an output that holds the items at all met positions is the yielded subset |
| Subset.TotalLines | opusfilter/opusfilter.py:150-157 | `_get_total_lines` is the file's line count, or `FileNotFound` for a missing file |
| Subset.DistinctCounts | opusfilter/opusfilter.py:195 | distinct sample positions occur at most once each |
| Subset.StrictlyDecreasing | opusfilter/opusfilter.py:164 | a descending list without repeats is strictly descending |
| Subset.PopsMultiset | opusfilter/opusfilter.py:165-170 | popping removes exactly the list's elements |
| Subset.PopsAt | opusfilter/opusfilter.py:165-170 | the i-th pop removes the i-th element from the end |
| Subset.PopOrderOfSample | opusfilter/opusfilter.py:164-170 | the pending positions of a distinct sample are visited once each, in strictly ascending order |
| Subset.MatchCountReachesEnd | opusfilter/opusfilter.py:166-172 | over increasing positions, the first position the pass does not meet lies past the end of the input |
| Subset.WalkIncreasing | opusfilter/opusfilter.py:166-172 | every increasing position the pass does not meet is past the end of the input |
| Subset.WalkAll | opusfilter/opusfilter.py:166-172 | increasing positions that all exist are all met |
| Subset.ExtractSample | opusfilter/opusfilter.py:159-172 | `_yield_subset` yields the items at the sampled positions that exist, in ascending position order, and the ones it misses are past the end |
| Subset.ExtractFullSample | opusfilter/opusfilter.py:195-199 | with a sample of `size` distinct positions of the file, exactly `size` lines come out, in file order, and the file is read up to the largest sampled position |
| Subset.InRange | opusfilter/opusfilter.py:195 | reordered sample positions stay inside `range(total)` |
| Subset.LastIsMax | opusfilter/opusfilter.py:169-172 | the last position visited is the largest sampled one |
| Subset.NegativePositionStopsPass | opusfilter/opusfilter.py:162-172 | a negative position is popped first and never met, so nothing is yielded |
| RankOrder.StrLess | opusfilter/opusfilter.py:307 | Python's `<` on strings: character by character, a proper prefix first (a definition; the four lemmas below show it is a strict total order) |
| RankOrder.StrLessIrreflexive | opusfilter/opusfilter.py:307 | string order is irreflexive |
| RankOrder.StrLessAsymmetric | opusfilter/opusfilter.py:307 | string order is asymmetric |
| RankOrder.StrLessTransitive | opusfilter/opusfilter.py:307 | string order is transitive |
| RankOrder.StrLessTotal | opusfilter/opusfilter.py:307 | any two strings are equal or ordered one way |
| RankOrder.NotLessTransitive | opusfilter/opusfilter.py:307 | "not below" is transitive |
| RankOrder.Zip3 | opusfilter/opusfilter.py:304-305 | `zip` gives as many rows as the shortest column, row i holding line i of each |
| RankOrder.Insert | opusfilter/opusfilter.py:307 | inserting a row adds one row, placed first or after the first row |
| RankOrder.SortByRank | opusfilter/opusfilter.py:307 | sorting keeps the number of rows |
| RankOrder.InsertSorted | opusfilter/opusfilter.py:307 | inserting into rows ranked highest first keeps them ranked highest first |
| RankOrder.InsertMultiset | opusfilter/opusfilter.py:307 | inserting adds exactly that row |
| RankOrder.WithRank | opusfilter/opusfilter.py:307 | the rows of one rank are at most all rows |
| RankOrder.InsertWithRank | opusfilter/opusfilter.py:307 | an inserted row goes before the rows of its own rank that followed it |
| RankOrder.SortByRankSorted | opusfilter/opusfilter.py:307 | `sorted(..., key=rank, reverse=True)` leaves the ranks non-increasing in string order |
| RankOrder.SortByRankPermutes | opusfilter/opusfilter.py:307 | the sort is a permutation of the rows, each (src, tgt, rank) row kept whole |
| RankOrder.SortByRankStable | opusfilter/opusfilter.py:307 | rows of equal rank keep their input order |
| RankOrder.RankedColumns | opusfilter/opusfilter.py:304-312 | the three written columns are the source, target and rank fields of the sorted rows |
| RankOrder.RankedColumnsFacts | opusfilter/opusfilter.py:304-312 | the columns have the shortest input's length, come from a permutation of the zipped rows, are ranked highest first and keep ties in input order |
| RankOrder.RankExample | opusfilter/opusfilter.py:304-312 | ranks 3, 1, 2 on A, B, C write A, C, B |
| RankOrder.StringRankExample | opusfilter/opusfilter.py:307 | ranks compare as text: "9" comes out above "10" |
| ScoreConfig.JoinFirst | opusfilter/opusfilter.py:270-271 | an `interpolate` entry gets its first element joined to the output directory, with the error Python raises on an entry that has no string first element |
| ScoreConfig.JoinFirsts | opusfilter/opusfilter.py:269-271 | the rewrite of an `interpolate` list succeeds exactly when every entry can be rewritten, and then rewrites each entry in place |
| ScoreConfig.JoinFirstsFirstError | opusfilter/opusfilter.py:269-271 | the loop stops at the first entry that cannot be rewritten, with that entry's error |
| ScoreConfig.JoinInterpolate | opusfilter/opusfilter.py:269-271 | the `for idx in range(len(...))` loop computes `JoinFirsts` |
| ScoreConfig.LmParams | opusfilter/opusfilter.py:265-277 | an lm-params dictionary gets `filename` joined and, when `interpolate` is truthy, each interpolate file joined; no other key changes |
| ScoreConfig.Priors | opusfilter/opusfilter.py:261-263 | `WordAlignFilter` parameters without `priors` stay as they are; otherwise only `priors` changes |
| ScoreConfig.CrossEntropy | opusfilter/opusfilter.py:264-278 | a rewritten `CrossEntropyFilter` holds both rewritten lm-params sets and its other keys unchanged |
| ScoreConfig.RewriteFilter | opusfilter/opusfilter.py:259-278 | a filter that is not a dictionary raises `AttributeError`, an empty one `StopIteration`; a rewritten filter keeps its name and every key after the first, and a filter other than the two named ones is unchanged |
| ScoreConfig.RewriteAll | opusfilter/opusfilter.py:259-278 | the filter list is rewritten exactly when every filter can be, one rewritten filter per input filter |
| ScoreConfig.RewriteAllFirstError | opusfilter/opusfilter.py:259-278 | the loop stops at the first filter that cannot be rewritten, with its error |
| ScoreConfig.RewriteFilterList | opusfilter/opusfilter.py:259-278 | the `for f in filter_params` loop computes `RewriteAll` |
| ScoreConfig.RewriteFilters | opusfilter/opusfilter.py:258-278 | a list of filters is rewritten exactly when every filter can be, filter by filter; any other value that passes comes back unchanged |
| ScoreConfig.RewriteKeepsFilters | opusfilter/opusfilter.py:257-278 | the rewritten list has the same filters in the same order under the same names, and every other filter is untouched |
| ScoreConfig.PriorsAbsent | opusfilter/opusfilter.py:261 | a `WordAlignFilter` without `priors` is left as it is |
| ScoreConfig.PriorsJoined | opusfilter/opusfilter.py:261-263 | a string `priors` gets the output directory joined, and nothing else changes |
| ScoreConfig.CrossEntropyJoined | opusfilter/opusfilter.py:264-278 | a `CrossEntropyFilter` is rewritten exactly when both lm-params sets can be, and then holds both rewritten sets |
| ScoreConfig.CrossEntropyOk | opusfilter/opusfilter.py:264-278 | the `CrossEntropyFilter` rewrite succeeds exactly when both lm-params rewrites do |
| ScoreConfig.InterpolateExample | opusfilter/opusfilter.py:268-271 | an interpolate entry `[b.arpa, 1]` becomes `[work/b.arpa, 1]` |
| Steps.Skips | opusfilter/opusfilter.py:77 | the skip guard: without `overwrite`, true exactly when every listed output exists (a definition; the guard lemmas below state where each handler uses it) |
| Steps.ReadFromOpus | opusfilter/opusfilter.py:73-91 | `read_from_opus` is skipped, with the files unchanged, when both outputs exist and `overwrite` is off; otherwise the files change only through the `OpusRead` work |
| Steps.TrainNgram | opusfilter/opusfilter.py:218-235 | `train_ngram` is skipped, with the files unchanged, when the model file exists and `overwrite` is off; otherwise the files change only through the `lm` training |
| Steps.TrainAlignment | opusfilter/opusfilter.py:237-249 | `train_alignment` is skipped, with the files unchanged, when its output exists and `overwrite` is off; otherwise the files change only through the `word_alignment` training |
| Steps.Classify | opusfilter/opusfilter.py:288-293 | `classify` hands its parameters to the `classifier` code with no guard; `ExecutorFacts.UnguardedSteps` states that `overwrite` makes no difference to it |
| Steps.JoinedParam | opusfilter/opusfilter.py:115 | the file `os.path.join(output_dir, parameters[key])` names: it exists exactly for a string value, is the canonical spelling of the joined path, and the lookup's error is passed on |
| Steps.InputPaths | opusfilter/opusfilter.py:122 | the input pair is looked up `src_input` first, then `tgt_input`, then named by `get_pairs`; a failed `src_input` lookup raises its error before `tgt_input` is looked up, and a failed `tgt_input` lookup raises its own |
| Steps.Firsts | opusfilter/opusfilter.py:131 | the source column holds the first side of every pair |
| Steps.Seconds | opusfilter/opusfilter.py:132 | the target column holds the second side of every pair |
| Steps.LimitedCount | opusfilter/opusfilter.py:130-136 | `if limit and idx >= limit - 1: break` writes every pair under a falsy limit, stops at the limit (at least one pair) for an int limit, and fails with `TypeError` after the first pair for a truthy non-int limit |
| Steps.LimitedWrite | opusfilter/opusfilter.py:128-136 | for distinct outputs, line i of the source and target outputs is the i-th selected pair and no more pairs are written than selected; a falsy limit writes them all; the only failure is the `TypeError` of a non-integer limit, after one pair |
| Steps.WriteLimited | opusfilter/opusfilter.py:128-136 | the write loop leaves the outputs and status of `LimitedWrite` |
| Steps.FilterRun | opusfilter/opusfilter.py:120-136 | `filter_data` after its guard never reports a skip (that a `from_config` rejection fails before any output is opened is stated by `StepFacts.FilterRunWrites`) |
| Steps.RunFilterData | opusfilter/opusfilter.py:113-136 | the `filter_data` method computes `FilterData` |
| Steps.FilterData | opusfilter/opusfilter.py:113-136 | `filter_data` reports a skip exactly when both output names resolve and both outputs exist without `overwrite`, and a skip leaves the files unchanged |
| Steps.ConcatInputs | opusfilter/opusfilter.py:145-148 | appending the inputs never reports a skip |
| Steps.ConcatRun | opusfilter/opusfilter.py:144-148 | `concatenate` after its guard never reports a skip |
| Steps.ConcatLoop | opusfilter/opusfilter.py:145-148 | the nested `for infile` / `for line` loops compute `ConcatInputs` |
| Steps.RunConcatenate | opusfilter/opusfilter.py:138-148 | the `concatenate` method computes `Concatenate` |
| Steps.Concatenate | opusfilter/opusfilter.py:138-148 | `concatenate` reports a skip exactly when the output name resolves and the output exists without `overwrite`, and a skip leaves the files unchanged |
| Steps.SampleSize | opusfilter/opusfilter.py:195 | `random.sample(range(total), size)` accepts an int size from 0 to `total`, and raises `TypeError` for a non-int and `ValueError` outside that range |
| Steps.SubsetWrite | opusfilter/opusfilter.py:194-216 | the subset write never reports a skip |
| Steps.SubsetRun | opusfilter/opusfilter.py:189-216 | `get_subset` after its guard never reports a skip; what it does is stated by `StepFacts.SubsetRunChecksSize` |
| Steps.RunGetSubset | opusfilter/opusfilter.py:174-216 | the `get_subset` method computes `GetSubset`: its path lookups, guard, `random.seed` check (a list or dictionary seed raises `TypeError` before `size` is read), and its `_get_total_lines` and `_yield_subset` loops |
| Steps.GetSubset | opusfilter/opusfilter.py:174-216 | `get_subset` reports a skip exactly when all four names resolve and both outputs exist without `overwrite`, and a skip leaves the files unchanged |
| Steps.ScoreRun | opusfilter/opusfilter.py:257-286 | `score_data` after its guard never reports a skip (that a `from_config` rejection fails before the output is opened is stated by `StepFacts.ScoreRunWrites`) |
| Steps.RunScoreData | opusfilter/opusfilter.py:251-286 | the `score_data` method, with its rewrite loops, computes `ScoreData` |
| Steps.ScoreData | opusfilter/opusfilter.py:251-286 | `score_data` reports a skip exactly when the output name resolves and the output exists without `overwrite`, and a skip leaves the files unchanged |
| Steps.RawPath | opusfilter/opusfilter.py:297-302 | `order_by_rank` opens the file the configured name names, in canonical spelling, without the output directory; a name that is not a string raises `TypeError` |
| Steps.OpenInput | opusfilter/opusfilter.py:297-299 | opening an `order_by_rank` input gives the canonical name when a file is filed under it and `FileNotFound` when not |
| Steps.OrderByRank | opusfilter/opusfilter.py:295-312 | opens the three inputs, then truncates the three outputs, then reads, sorts and writes; there is no skip guard (its writes are stated by `StepFacts.OrderByRankWrites` and `StepFacts.OrderByRankOverInput`) |
| StepFacts.FilterDataGuard | opusfilter/opusfilter.py:115-119 | without `overwrite`, `filter_data` is skipped exactly when both outputs exist, and otherwise runs |
| StepFacts.ConcatenateGuard | opusfilter/opusfilter.py:140-143 | without `overwrite`, `concatenate` is skipped exactly when its output exists |
| StepFacts.GetSubsetGuard | opusfilter/opusfilter.py:182-188 | `get_subset` is skipped exactly when, without `overwrite`, both outputs exist, whatever its inputs |
| StepFacts.GetSubsetRuns | opusfilter/opusfilter.py:182-188 | unless both outputs exist without `overwrite`, `get_subset` goes on to seed, size check and subset |
| StepFacts.ScoreDataGuard | opusfilter/opusfilter.py:253-256 | without `overwrite`, `score_data` is skipped exactly when its output exists |
| StepFacts.ReadFromOpusGuard | opusfilter/opusfilter.py:75-91 | without `overwrite`, `read_from_opus` is skipped exactly when both outputs exist, and otherwise hands over to OpusRead |
| StepFacts.TrainNgramGuard | opusfilter/opusfilter.py:220-235 | without `overwrite`, `train_ngram` is skipped exactly when the model file exists |
| StepFacts.TrainAlignmentGuard | opusfilter/opusfilter.py:239-249 | without `overwrite`, `train_alignment` is skipped exactly when the priors file exists |
| StepFacts.LimitedWriteOutputs | opusfilter/opusfilter.py:128-136 | line i of the two outputs is the i-th selected pair; all pairs under a falsy limit, `min(limit, n)` under an int limit of at least 1, one pair then `TypeError` for a non-int limit; no other file changes |
| StepFacts.FilterRunWrites | opusfilter/opusfilter.py:120-136 | a filter configuration `from_config` rejects fails with its exception and leaves every file as it was; otherwise `filter_data` writes a prefix of the `filter` or `filterfalse` stream of the input pairs, as the flag selects, the whole stream without a limit, and changes only its two outputs |
| StepFacts.FilterRunUnfold | opusfilter/opusfilter.py:120-136 | with the filters and input names known and the inputs present, `filter_data` is the `from_config` failure or the limited write of the selected stream into the truncated outputs |
| StepFacts.GetPairsReadsJoinedFiles | opusfilter/opusfilter.py:105-122 | for relative input names under a non-empty output directory, the files `get_pairs` reads are the files `os.path.join` names, whether or not the directory ends in '/' |
| StepFacts.InputLinesFrame | opusfilter/opusfilter.py:145-147 | the lines read from the inputs depend only on those input files |
| StepFacts.ConcatInputsStep | opusfilter/opusfilter.py:145-148 | one input appended puts its current lines after the output's |
| StepFacts.ConcatInputsPrefix | opusfilter/opusfilter.py:145-148 | after k present inputs, none the output itself, the output holds their lines in list order |
| StepFacts.AppendRegroup | opusfilter/opusfilter.py:145-148 | appending the first input and then the next k - 1 leaves the output as appending the first k at once |
| StepFacts.InputLinesCons | opusfilter/opusfilter.py:145-147 | the input lines are the first input's lines followed by the rest's |
| StepFacts.ConcatRunInOrder | opusfilter/opusfilter.py:144-148 | with every input present and distinct from the output, `concatenate` leaves the output holding all input lines in list order and changes nothing else |
| StepFacts.ConcatRunStopsAtMissing | opusfilter/opusfilter.py:145-146 | a missing input raises `FileNotFound` and the output keeps the lines of the inputs before it |
| StepFacts.ConcatRunUnfold | opusfilter/opusfilter.py:144-148 | with the input list known, `concatenate` appends the inputs to the freshly emptied output |
| StepFacts.ConcatEmptiedPrefix | opusfilter/opusfilter.py:144-148 | after the first k inputs, all present and none the output, the emptied output holds exactly their lines in list order |
| StepFacts.ConcatInputsMissing | opusfilter/opusfilter.py:145-146 | an input that does not exist stops the appending with `FileNotFound` and leaves the files as they are |
| StepFacts.SubsetRunChecksSize | opusfilter/opusfilter.py:189-195 | `get_subset` fails, with nothing written, on a list or dictionary seed (`TypeError` from `random.seed`), then on a missing source input, a non-int size or a size outside 0..line count; otherwise it writes the subset with that seed |
| StepFacts.SubsetSource | opusfilter/opusfilter.py:194-212 | the source output holds exactly `size` source lines, those at the sampled positions in file order, and only the two outputs change |
| StepFacts.PairedSubset | opusfilter/opusfilter.py:207-216 | without shuffling, the target output holds the target lines at the same positions, so the subset stays parallel |
| StepFacts.PopOrderExample | opusfilter/opusfilter.py:164-170 | sampled positions 3, 1 are visited as 1, then 3 |
| StepFacts.PairedSubsetExample | opusfilter/opusfilter.py:207-216 | sampling positions {1, 3} of a, b, c, d / w, x, y, z writes b, d and x, z |
| StepFacts.PairedSubsetOfFour | opusfilter/opusfilter.py:207-216 | positions 3 and 1 sampled from four parallel lines select lines 1 and 3 of both files, in that order |
| StepFacts.ShuffledSubset | opusfilter/opusfilter.py:194-206 | with `shuffle_target`, the target output holds, in any order, the target lines at a second sample's `size` positions |
| StepFacts.ShuffledTarget | opusfilter/opusfilter.py:194-206 | with `shuffle_target`, the target output holds the shuffle of the target lines at the second sample's positions |
| StepFacts.ScoreRunWrites | opusfilter/opusfilter.py:280-286 | a rewritten filter list `from_config` rejects fails with its exception and leaves every file as it was; otherwise `score_data` gives the pipeline the rewritten filters, writes its scores of the input pairs (one pair per source line) to the output, and changes nothing else |
| StepFacts.ScoreRewriteErrorWritesNothing | opusfilter/opusfilter.py:257-284 | a filter list that cannot be rewritten fails the step before the output is opened |
| StepFacts.OrderByRankWrites | opusfilter/opusfilter.py:295-312 | `order_by_rank` writes the sorted columns to its outputs whether or not they exist: as many rows as the shortest input, ranks non-increasing; no other file changes |
| StepFacts.OrderByRankOverInput | opusfilter/opusfilter.py:297-305 | when any output is named like any input, that input is read after the outputs are truncated, so `zip` yields nothing and every output comes out empty |
| StepFacts.OrderByRankUnfold | opusfilter/opusfilter.py:295-312 | with the six names resolved and the inputs present, `order_by_rank` writes the ranked columns of the inputs, read after the three outputs are emptied |
| StepFacts.RawPathUnderDefaultDir | opusfilter/opusfilter.py:297-302 | under the default output directory '.', the file `order_by_rank` opens is the file `os.path.join` names for the same parameter, so it finds the outputs of earlier steps |
| Executor.Init | opusfilter/opusfilter.py:27-34 | a non-dictionary configuration raises `AttributeError`; without `common` the directory is '.'; a constructed object keeps the configuration and never has an empty directory |
| Executor.StepFunction | opusfilter/opusfilter.py:41-51 | a step type resolves exactly when it is one of the nine step names; a list or dictionary raises `TypeError` and anything else `KeyError` |
| Executor.Handler | opusfilter/opusfilter.py:41-51 | the `step_functions` table: each of the nine step names calls its own handler (a definition; what each handler does is stated by its own row) |
| Executor.RunStep | opusfilter/opusfilter.py:59 | one step: `step['type']`, then the handler lookup, then `step['parameters']`, then the handler (its failures are stated by `ExecutorFacts.UnknownStepType`) |
| Executor.Step | opusfilter/opusfilter.py:59 | one step dispatched by its type, running the handler methods, computes `RunStep` |
| Executor.RunFrom | opusfilter/opusfilter.py:55-59 | a run of steps ends `Done` or `Failed`, never skipped |
| Executor.RunFromUnfold | opusfilter/opusfilter.py:55-59 | a step inside the bound runs, and the next step runs on its files unless it failed |
| Executor.ExecuteSteps | opusfilter/opusfilter.py:53-59 | `execute_steps`: `configuration['steps']` iterated, then the run of its steps (what a run does is stated by `ExecutorFacts.ExecuteStepsLast` and `ExecutorFacts.RunFromSplit`) |
| Executor.RunSteps | opusfilter/opusfilter.py:55-59 | the `for num, step in enumerate(...)` loop computes `RunFrom` |
| Executor.RunExecuteSteps | opusfilter/opusfilter.py:53-59 | the `execute_steps` method computes `ExecuteSteps` |
| Executor.PyIndex | opusfilter/opusfilter.py:69 | Python indexing succeeds exactly from `-len` to `len - 1`, counting negative indices from the end, and raises `IndexError` otherwise |
| Executor.StepAt | opusfilter/opusfilter.py:69 | step `num` of a list is the num-th from the front for 1..n, the num-th from the end for -n..-1, and the last step for 0; any other number raises `IndexError` |
| Executor.ExecuteStep | opusfilter/opusfilter.py:62-71 | `execute_step(num)`: step `num` picked by `StepAt`, then run by `RunStep` (tied to `execute_steps` by `ExecutorFacts.ResumeWithStep`) |
| Executor.RunExecuteStep | opusfilter/opusfilter.py:62-71 | the `execute_step` method computes `ExecuteStep` |
| ExecutorFacts.RunFromLast | opusfilter/opusfilter.py:55-58 | with `last = k`, the run is the unbounded run of the first k steps, k clamped to the steps that exist |
| ExecutorFacts.RunFromSplit | opusfilter/opusfilter.py:55-59 | a run splits at any step: the steps before it, then, unless they failed, the rest on the files they left |
| ExecutorFacts.ExecuteStepsLast | opusfilter/opusfilter.py:53-58 | `execute_steps(last=k)` runs exactly the first k steps: none for k of 0 or less, all for k at least the number of steps |
| ExecutorFacts.UnknownStepType | opusfilter/opusfilter.py:59 | a step with an unknown type raises `KeyError(type)` without touching any file |
| ExecutorFacts.UnknownTypeAfterEarlierSteps | opusfilter/opusfilter.py:55-59 | an unknown type at step i raises `KeyError` only after steps 1..i-1 have run, and their files stay written |
| ExecutorFacts.UnguardedSteps | opusfilter/opusfilter.py:288-312 | `classify` and `order_by_rank` have no skip guard: they run the same with or without `overwrite` |
| ExecutorFacts.ResumeWithStep | opusfilter/opusfilter.py:53-71 | `execute_steps(last=k)` then `execute_step(k + 1)` leaves the files that `execute_steps(last=k + 1)` leaves, and fails where it fails |
| ExecutorFacts.ExecuteStepAt | opusfilter/opusfilter.py:62-71 | `execute_step(k + 1)` runs the (k + 1)-th step of the list, counting from 1 |
| ExecutorFacts.RunFromExtend | opusfilter/opusfilter.py:55-59 | running the first k + 1 steps is running the first k and then, unless they failed, step k + 1 on the files they left |
| ExecutorFacts.InitExamples | opusfilter/opusfilter.py:29-34 | an empty output directory falls back to '.', a named one is kept, an integer one is rejected |

## Left out

- I/O proper: file contents are lists of lines, so compression, encodings,
  buffering, `flush` and line terminators are not modelled. A final line
  without a newline is treated like any other line. The difference between
  `read().splitlines()` and iterating over a file is not modelled either.
- Files.Canon: paths are normalized only as far as squeezing runs of '/'
  and dropping a leading "./". Interior "/./" and ".." components, symbolic
  links and hard links are not resolved, so two such spellings of one file
  are two files in the model. The files present at the start are assumed to
  be filed under canonical spellings. A path spelled "./" canonicalizes to
  the empty path, since directories are not modelled.
- Files.ReadFile: `FileNotFound` carries the canonical spelling of the path,
  where the Python exception carries the spelling the code used.
- Directories: the `os.path.isdir` check and `os.mkdir` of the output
  directory, and the failure to open a file in a missing directory, are left
  out. The skip guard's `os.path.isfile` is "the path is in the file system".
- Logging, `tqdm` progress bars and `json.dumps`: the pipeline's `score`
  stream yields the written lines directly.
- Floating-point configuration values are not modelled. Values are trees, so
  YAML aliases and the aliasing that `copy.deepcopy` guards against do not
  arise. The rewrite of the filter list returns a new value and leaves the
  configuration untouched.
- The filter pipeline (`pipeline.FilterPipeline`), tokenizers, `OpusRead`,
  `lm`, `word_alignment` and `classifier` are not part of this model. They
  are parameters of `Env`. `read_from_opus`, `train_ngram`,
  `train_alignment` and `classify` hand their work to `Env.foreign` once
  their guard has passed. A configuration `from_config` rejects is modelled
  (`Env.fromConfig` returns the exception), but exceptions raised inside a
  filter while the pairs are streamed are not: the streams are total functions.
- `random` is a parameter: `Env.sample` and `Env.shuffle`. The lemmas
  assume what `random.sample` promises (`IsSample`) and, for
  `ShuffledSubset`, that the shuffle is a permutation.
- Laziness: the streams are functions on whole sequences, so the model does
  not state that pairs beyond the limit are never read or filtered. The
  files are read when they are opened, which is where a missing file fails.
- StepFacts.FilterRunWrites, StepFacts.ScoreRunWrites,
  StepFacts.SubsetSource, StepFacts.PairedSubset, StepFacts.ShuffledSubset,
  StepFacts.ConcatRunInOrder and StepFacts.OrderByRankWrites: each assumes
  its outputs are distinct from each other and from its inputs. For
  `filter_data`, `score_data`, `order_by_rank` and `get_subset` the handler
  functions follow the code's order of opening and reading when they are
  not, and `StepFacts.OrderByRankOverInput` states the result for
  `order_by_rank`.
- Steps.ConcatInputs: an output that is also listed as an input is read back
  with the lines appended to it so far. What the code reads there depends on
  how much of the output's write buffer has been flushed.
- Steps.FilterRun and Steps.OrderByRank: when two outputs share a name, the
  code has that file open twice at once, each handle writing from the start,
  so the file ends up holding the columns written over each other byte by
  byte (in `order_by_rank` also depending on when the buffers are flushed).
  The model keeps the column written last.
- ExecutorFacts.ResumeWithStep: the lemma compares two runs that see the same
  random draws and the same foreign results. The program guarantees that only
  when every `subset` step sets a `seed` and the foreign steps are
  deterministic.
- PairStream.PairPaths: a file name that is not a string is formatted with
  `str()` by `get_pairs`; the model raises `TypeError` for it instead.
- Steps.RawPath: `open()` of an integer file descriptor is not modelled;
  any name that is not a string raises `TypeError`.
- Executor.Init: an output directory that is truthy but not a string raises
  `TypeError` in the model; the code would hand it to `os.path.isdir`.
- `execute_steps(last=...)` takes an integer or `None`; other values of
  `last`, and of `num` in `execute_step`, are not modelled.
