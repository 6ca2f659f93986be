/** What the step handlers promise: each skip guard, what `filter`,
    `concatenate`, `subset`, `score` and `order_by_rank` leave in their
    outputs, and where they stop on an error. */
module StepFacts {
  import opened PyValues
  import opened Files
  import opened PairStream
  import opened Subset
  import opened RankOrder
  import opened ScoreConfig
  import opened Steps

  /** Every file outside `changed` is as it was. */
  ghost predicate OthersUnchanged(fs: FileSystem, fs': FileSystem, changed: set<Path>) {
    (forall p :: p !in changed ==> (p in fs <==> p in fs')) &&
    (forall p :: p !in changed && p in fs ==> fs'[p] == fs[p])
  }

  // ---------------------------------------------------------------------
  // Skip guards: without `overwrite`, a step whose outputs all exist does
  // nothing; otherwise it runs. No run reports `Skipped` (each `...Run`
  // function ensures so), so `Skipped` means exactly "guarded".

  lemma FilterDataGuard(env: Env, dir: Path, parameters: Value, overwrite: bool, fs: FileSystem,
                        srcOut: Path, tgtOut: Path)
    requires JoinedParam(dir, parameters, "src_output") == Ok(srcOut)
    requires JoinedParam(dir, parameters, "tgt_output") == Ok(tgtOut)
    ensures FilterData(env, dir, parameters, overwrite, fs) ==
            if !overwrite && srcOut in fs && tgtOut in fs then Outcome(fs, Skipped)
            else FilterRun(env, dir, parameters, fs, srcOut, tgtOut)
  {
  }

  lemma ConcatenateGuard(dir: Path, parameters: Value, overwrite: bool, fs: FileSystem, out: Path)
    requires JoinedParam(dir, parameters, "output") == Ok(out)
    ensures Concatenate(dir, parameters, overwrite, fs) ==
            if !overwrite && out in fs then Outcome(fs, Skipped)
            else ConcatRun(dir, parameters, fs, out)
  {
  }

  /** `subset` is guarded by its two outputs only, not by its inputs. */
  lemma GetSubsetGuard(env: Env, dir: Path, parameters: Value, overwrite: bool, fs: FileSystem,
                       srcIn: Path, tgtIn: Path, srcOut: Path, tgtOut: Path)
    requires JoinedParam(dir, parameters, "src_input") == Ok(srcIn)
    requires JoinedParam(dir, parameters, "tgt_input") == Ok(tgtIn)
    requires JoinedParam(dir, parameters, "src_output") == Ok(srcOut)
    requires JoinedParam(dir, parameters, "tgt_output") == Ok(tgtOut)
    ensures parameters.Dict?
    ensures GetSubset(env, dir, parameters, overwrite, fs) ==
            if !overwrite && srcOut in fs && tgtOut in fs then Outcome(fs, Skipped)
            else SubsetRun(env, parameters, fs, srcIn, tgtIn, srcOut, tgtOut)
  {
    if !overwrite && srcOut in fs && tgtOut in fs {
      assert Skips(overwrite, fs, [srcOut, tgtOut]);
      var r := GetSubset(env, dir, parameters, overwrite, fs);
      assert r.status == Skipped && r.fs == fs;
    } else {
      GetSubsetRuns(env, dir, parameters, overwrite, fs, srcIn, tgtIn, srcOut, tgtOut);
    }
  }

  /** Unless both outputs exist without `overwrite`, `get_subset` goes on to the subset. */
  lemma GetSubsetRuns(env: Env, dir: Path, parameters: Value, overwrite: bool, fs: FileSystem,
                      srcIn: Path, tgtIn: Path, srcOut: Path, tgtOut: Path)
    requires JoinedParam(dir, parameters, "src_input") == Ok(srcIn)
    requires JoinedParam(dir, parameters, "tgt_input") == Ok(tgtIn)
    requires JoinedParam(dir, parameters, "src_output") == Ok(srcOut)
    requires JoinedParam(dir, parameters, "tgt_output") == Ok(tgtOut)
    requires !(!overwrite && srcOut in fs && tgtOut in fs)
    ensures parameters.Dict?
    ensures GetSubset(env, dir, parameters, overwrite, fs) == SubsetRun(env, parameters, fs, srcIn, tgtIn, srcOut, tgtOut)
  {
    assert srcOut in [srcOut, tgtOut] && tgtOut in [srcOut, tgtOut];
    assert !Skips(overwrite, fs, [srcOut, tgtOut]);
  }

  lemma ScoreDataGuard(env: Env, dir: Path, parameters: Value, overwrite: bool, fs: FileSystem, out: Path)
    requires JoinedParam(dir, parameters, "output") == Ok(out)
    ensures ScoreData(env, dir, parameters, overwrite, fs) ==
            if !overwrite && out in fs then Outcome(fs, Skipped)
            else ScoreRun(env, dir, parameters, fs, out)
  {
  }

  /** The steps whose work is done elsewhere hand over the parameters unchanged. */
  lemma ReadFromOpusGuard(env: Env, dir: Path, parameters: Value, overwrite: bool, fs: FileSystem,
                          srcOut: Path, tgtOut: Path)
    requires JoinedParam(dir, parameters, "src_output") == Ok(srcOut)
    requires JoinedParam(dir, parameters, "tgt_output") == Ok(tgtOut)
    ensures ReadFromOpus(env, dir, parameters, overwrite, fs) ==
            if !overwrite && srcOut in fs && tgtOut in fs then Outcome(fs, Skipped)
            else env.foreign("opus_read", parameters, fs)
  {
  }

  lemma TrainNgramGuard(env: Env, dir: Path, parameters: Value, overwrite: bool, fs: FileSystem, model: Path)
    requires JoinedParam(dir, parameters, "model") == Ok(model)
    ensures TrainNgram(env, dir, parameters, overwrite, fs) ==
            if !overwrite && model in fs then Outcome(fs, Skipped)
            else env.foreign("train_ngram", parameters, fs)
  {
  }

  lemma TrainAlignmentGuard(env: Env, dir: Path, parameters: Value, overwrite: bool, fs: FileSystem, output: Path)
    requires JoinedParam(dir, parameters, "output") == Ok(output)
    ensures TrainAlignment(env, dir, parameters, overwrite, fs) ==
            if !overwrite && output in fs then Outcome(fs, Skipped)
            else env.foreign("train_alignment", parameters, fs)
  {
  }

  // ---------------------------------------------------------------------
  // `filter`

  /** The write loop keeps the two outputs in step: line `i` of each is one
      side of the `i`-th selected pair, with as many pairs as the limit lets
      through, and no other file changes. */
  lemma LimitedWriteOutputs(fs: FileSystem, srcOut: Path, tgtOut: Path, pairs: seq<Pair>, limit: Value)
    requires srcOut != tgtOut
    ensures var o := LimitedWrite(fs, srcOut, tgtOut, pairs, limit);
            var n := |o.fs[srcOut]|;
            OthersUnchanged(fs, o.fs, {srcOut, tgtOut}) &&
            n == |o.fs[tgtOut]| && n <= |pairs| &&
            (forall i :: 0 <= i < n ==> (o.fs[srcOut][i], o.fs[tgtOut][i]) == pairs[i]) &&
            (!Truthy(limit) ==> n == |pairs| && o.status == Done) &&
            (AsInt(limit).Some? && AsInt(limit).value >= 1 ==>
               o.status == Done && n == (if AsInt(limit).value < |pairs| then AsInt(limit).value else |pairs|)) &&
            (pairs != [] && Truthy(limit) && AsInt(limit).None? ==> n == 1 && o.status == Failed(TypeError))
  {
    var (count, fails) := LimitedCount(|pairs|, limit);
    var o := LimitedWrite(fs, srcOut, tgtOut, pairs, limit);
    assert o.fs[srcOut] == Firsts(pairs[..count]) && o.fs[tgtOut] == Seconds(pairs[..count]);
  }

  /** With both inputs present and apart from the outputs, `filter` either
      stops at `from_config` or is the limited write of the selected stream
      over the truncated outputs. */
  lemma FilterRunUnfold(env: Env, dir: Path, parameters: Value, fs: FileSystem,
                        srcOut: Path, tgtOut: Path, srcIn: Path, tgtIn: Path)
    requires Subscript(parameters, "filters").Ok?
    requires InputPaths(dir, parameters) == Ok((srcIn, tgtIn))
    requires srcIn in fs && tgtIn in fs
    requires srcIn != srcOut && srcIn != tgtOut && tgtIn != srcOut && tgtIn != tgtOut
    ensures var pipe := env.fromConfig(Subscript(parameters, "filters").value);
            var pairs := ReadPairs(fs, (srcIn, tgtIn)).value;
            FilterRun(env, dir, parameters, fs, srcOut, tgtOut) ==
            if pipe.Err? then Outcome(fs, Failed(pipe.error))
            else LimitedWrite(Truncate(fs, [srcOut, tgtOut]), srcOut, tgtOut,
                              if Truthy(Get(parameters, "filterfalse", Bool(false)).value)
                              then pipe.value.filterfalse(pairs) else pipe.value.filter(pairs),
                              Get(parameters, "limit", Null).value)
  {
    var fs1 := Truncate(fs, [srcOut, tgtOut]);
    assert fs1[srcIn] == fs[srcIn] && fs1[tgtIn] == fs[tgtIn];
    assert ReadPairs(fs1, (srcIn, tgtIn)) == ReadPairs(fs, (srcIn, tgtIn));
  }

  /** `get_pairs` spells its inputs `'{dir}/{name}'`, yet for relative names
      under the (never empty) output directory it opens the very files that
      `os.path.join` names for the other steps, trailing '/' or not. */
  lemma GetPairsReadsJoinedFiles(dir: Path, parameters: Value, src: string, tgt: string)
    requires dir != ""
    requires Subscript(parameters, "src_input") == Ok(Str(src)) && !IsAbsolute(src)
    requires Subscript(parameters, "tgt_input") == Ok(Str(tgt)) && !IsAbsolute(tgt)
    ensures InputPaths(dir, parameters) ==
            Ok((JoinedParam(dir, parameters, "src_input").value, JoinedParam(dir, parameters, "tgt_input").value))
  {
    SlashJoinSameFile(dir, src);
    SlashJoinSameFile(dir, tgt);
  }

  /** A filter configuration `from_config` rejects stops `filter` before its
      outputs are opened; otherwise `filter` writes the stream the
      `filterfalse` flag selects, read from inputs the truncated outputs do
      not touch, through the limited write loop. */
  lemma FilterRunWrites(env: Env, dir: Path, parameters: Value, fs: FileSystem,
                        srcOut: Path, tgtOut: Path, srcIn: Path, tgtIn: Path)
    requires Subscript(parameters, "filters").Ok?
    requires InputPaths(dir, parameters) == Ok((srcIn, tgtIn))
    requires srcIn in fs && tgtIn in fs
    requires srcOut != tgtOut && srcIn != srcOut && srcIn != tgtOut && tgtIn != srcOut && tgtIn != tgtOut
    ensures var o := FilterRun(env, dir, parameters, fs, srcOut, tgtOut);
            var pipe := env.fromConfig(Subscript(parameters, "filters").value);
            pipe.Err? ==> o == Outcome(fs, Failed(pipe.error))
    ensures var o := FilterRun(env, dir, parameters, fs, srcOut, tgtOut);
            var pipe := env.fromConfig(Subscript(parameters, "filters").value);
            pipe.Ok? ==>
            var pairs := ReadPairs(fs, (srcIn, tgtIn)).value;
            var selected := if Truthy(Get(parameters, "filterfalse", Bool(false)).value)
                            then pipe.value.filterfalse(pairs) else pipe.value.filter(pairs);
            var n := |o.fs[srcOut]|;
            OthersUnchanged(fs, o.fs, {srcOut, tgtOut}) &&
            n == |o.fs[tgtOut]| && n <= |selected| &&
            (forall i :: 0 <= i < n ==> (o.fs[srcOut][i], o.fs[tgtOut][i]) == selected[i]) &&
            (!Truthy(Get(parameters, "limit", Null).value) ==> n == |selected| && o.status == Done)
  {
    FilterRunUnfold(env, dir, parameters, fs, srcOut, tgtOut, srcIn, tgtIn);
    var fs1 := Truncate(fs, [srcOut, tgtOut]);
    var pipe := env.fromConfig(Subscript(parameters, "filters").value);
    if pipe.Ok? {
      var pairs := ReadPairs(fs, (srcIn, tgtIn)).value;
      var selected := if Truthy(Get(parameters, "filterfalse", Bool(false)).value)
                      then pipe.value.filterfalse(pairs) else pipe.value.filter(pairs);
      var limit := Get(parameters, "limit", Null).value;
      LimitedWriteOutputs(fs1, srcOut, tgtOut, selected, limit);
    }
  }

  // ---------------------------------------------------------------------
  // `concatenate`

  /** The lines of the named input files, one file after another. */
  function InputLines(dir: Path, fs: FileSystem, inputs: seq<Value>): seq<Line>
    requires forall i :: 0 <= i < |inputs| ==> inputs[i].Str? && Canon(Join(dir, inputs[i].s)) in fs
  {
    if inputs == [] then []
    else fs[Canon(Join(dir, inputs[0].s))] + InputLines(dir, fs, inputs[1..])
  }

  lemma {:induction false} InputLinesFrame(dir: Path, fs: FileSystem, fs': FileSystem, inputs: seq<Value>)
    requires forall i :: 0 <= i < |inputs| ==> inputs[i].Str? && Canon(Join(dir, inputs[i].s)) in fs
    requires forall i :: 0 <= i < |inputs| ==> Canon(Join(dir, inputs[i].s)) in fs' && fs'[Canon(Join(dir, inputs[i].s))] == fs[Canon(Join(dir, inputs[i].s))]
    ensures InputLines(dir, fs', inputs) == InputLines(dir, fs, inputs)
  {
    if inputs != [] {
      InputLinesFrame(dir, fs, fs', inputs[1..]);
    }
  }

  /** One input appended: its lines, as they stand, go after the output's. */
  lemma ConcatInputsStep(dir: Path, out: Path, inputs: seq<Value>, fs: FileSystem)
    requires out in fs && inputs != [] && inputs[0].Str? && Canon(Join(dir, inputs[0].s)) in fs
    ensures ConcatInputs(dir, out, inputs, fs) ==
            ConcatInputs(dir, out, inputs[1..], fs[out := fs[out] + fs[Canon(Join(dir, inputs[0].s))]])
  {
  }

  /** Appending the first `k` inputs, all present and none the output itself,
      puts their lines after the output's, in list order. */
  lemma {:induction false} ConcatInputsPrefix(dir: Path, out: Path, inputs: seq<Value>, fs: FileSystem, k: nat)
    requires out in fs && k <= |inputs|
    requires forall i :: 0 <= i < k ==> inputs[i].Str? && Canon(Join(dir, inputs[i].s)) in fs && Canon(Join(dir, inputs[i].s)) != out
    ensures ConcatInputs(dir, out, inputs, fs) ==
            ConcatInputs(dir, out, inputs[k..], fs[out := fs[out] + InputLines(dir, fs, inputs[..k])])
    decreases k
  {
    if k == 0 {
      assert inputs[0..] == inputs && inputs[..0] == [];
      assert fs[out] + InputLines(dir, fs, inputs[..0]) == fs[out];
      assert fs[out := fs[out]] == fs;
    } else {
      var fs1 := fs[out := fs[out] + fs[Canon(Join(dir, inputs[0].s))]];
      ConcatInputsStep(dir, out, inputs, fs);
      ConcatInputsPrefix(dir, out, inputs[1..], fs1, k - 1);
      assert inputs[1..][k - 1..] == inputs[k..];
      AppendRegroup(dir, out, inputs, fs, k);
    }
  }

  /** Appending the first input and then the next `k - 1` appends the first `k`. */
  lemma AppendRegroup(dir: Path, out: Path, inputs: seq<Value>, fs: FileSystem, k: nat)
    requires out in fs && 0 < k <= |inputs|
    requires forall i :: 0 <= i < k ==> inputs[i].Str? && Canon(Join(dir, inputs[i].s)) in fs && Canon(Join(dir, inputs[i].s)) != out
    ensures var fs1 := fs[out := fs[out] + fs[Canon(Join(dir, inputs[0].s))]];
            fs1[out := fs1[out] + InputLines(dir, fs1, inputs[1..][..k - 1])] ==
            fs[out := fs[out] + InputLines(dir, fs, inputs[..k])]
  {
    var p := Canon(Join(dir, inputs[0].s));
    var fs1 := fs[out := fs[out] + fs[p]];
    assert inputs[1..][..k - 1] == inputs[..k][1..];
    var rest := InputLines(dir, fs, inputs[..k][1..]);
    InputLinesFrame(dir, fs, fs1, inputs[..k][1..]);
    InputLinesCons(dir, fs, inputs[..k]);
    assert fs1[out] + rest == fs[out] + (fs[p] + rest);
  }

  lemma InputLinesCons(dir: Path, fs: FileSystem, inputs: seq<Value>)
    requires inputs != []
    requires forall i :: 0 <= i < |inputs| ==> inputs[i].Str? && Canon(Join(dir, inputs[i].s)) in fs
    ensures InputLines(dir, fs, inputs) == fs[Canon(Join(dir, inputs[0].s))] + InputLines(dir, fs, inputs[1..])
  {
  }

  /** With every input present and distinct from the output, `concatenate`
      leaves the output holding the inputs' lines in list order. */
  lemma ConcatRunInOrder(dir: Path, parameters: Value, fs: FileSystem, out: Path, inputs: seq<Value>)
    requires Subscript(parameters, "inputs") == Ok(List(inputs))
    requires forall i :: 0 <= i < |inputs| ==> inputs[i].Str? && Canon(Join(dir, inputs[i].s)) in fs && Canon(Join(dir, inputs[i].s)) != out
    ensures ConcatRun(dir, parameters, fs, out) == Outcome(fs[out := InputLines(dir, fs, inputs)], Done)
  {
    ConcatRunUnfold(dir, parameters, fs, out, inputs);
    ConcatEmptiedPrefix(dir, out, inputs, fs, |inputs|);
    assert inputs[..|inputs|] == inputs && inputs[|inputs|..] == [];
  }

  /** An input that cannot be opened stops `concatenate`, and the output keeps
      the lines of the inputs before it. */
  lemma ConcatRunStopsAtMissing(dir: Path, parameters: Value, fs: FileSystem, out: Path, inputs: seq<Value>, k: nat)
    requires Subscript(parameters, "inputs") == Ok(List(inputs))
    requires k < |inputs|
    requires forall i :: 0 <= i < k ==> inputs[i].Str? && Canon(Join(dir, inputs[i].s)) in fs && Canon(Join(dir, inputs[i].s)) != out
    requires inputs[k].Str? && Canon(Join(dir, inputs[k].s)) !in fs && Canon(Join(dir, inputs[k].s)) != out
    ensures ConcatRun(dir, parameters, fs, out) ==
            Outcome(fs[out := InputLines(dir, fs, inputs[..k])], Failed(FileNotFound(Canon(Join(dir, inputs[k].s)))))
  {
    ConcatRunUnfold(dir, parameters, fs, out, inputs);
    ConcatEmptiedPrefix(dir, out, inputs, fs, k);
    var fs2 := fs[out := InputLines(dir, fs, inputs[..k])];
    assert inputs[k..][0] == inputs[k];
    ConcatInputsMissing(dir, out, inputs[k..], fs2);
  }

  /** With the input list known, `concatenate` appends it to the emptied output. */
  lemma ConcatRunUnfold(dir: Path, parameters: Value, fs: FileSystem, out: Path, inputs: seq<Value>)
    requires Subscript(parameters, "inputs") == Ok(List(inputs))
    ensures ConcatRun(dir, parameters, fs, out) == ConcatInputs(dir, out, inputs, fs[out := []])
  {
    assert Iterate(List(inputs)) == Ok(inputs);
  }

  /** Appending the first `k` inputs to the emptied output leaves it holding
      exactly their lines. */
  lemma ConcatEmptiedPrefix(dir: Path, out: Path, inputs: seq<Value>, fs: FileSystem, k: nat)
    requires k <= |inputs|
    requires forall i :: 0 <= i < k ==> inputs[i].Str? && Canon(Join(dir, inputs[i].s)) in fs && Canon(Join(dir, inputs[i].s)) != out
    ensures ConcatInputs(dir, out, inputs, fs[out := []]) ==
            ConcatInputs(dir, out, inputs[k..], fs[out := InputLines(dir, fs, inputs[..k])])
  {
    var fs1 := fs[out := []];
    ConcatInputsPrefix(dir, out, inputs, fs1, k);
    InputLinesFrame(dir, fs, fs1, inputs[..k]);
    var lines := InputLines(dir, fs, inputs[..k]);
    assert fs1[out] + lines == lines;
    assert fs1[out := lines] == fs[out := lines];
  }

  /** An input that cannot be opened stops the appending, leaving the files as they are. */
  lemma ConcatInputsMissing(dir: Path, out: Path, inputs: seq<Value>, fs: FileSystem)
    requires out in fs && inputs != [] && inputs[0].Str? && Canon(Join(dir, inputs[0].s)) !in fs
    ensures ConcatInputs(dir, out, inputs, fs) == Outcome(fs, Failed(FileNotFound(Canon(Join(dir, inputs[0].s)))))
  {
  }

  // ---------------------------------------------------------------------
  // `subset`

  /** Until the sample is drawn, `subset` stops on a seed `random.seed`
      refuses, a missing source input or a size that is not an integer from 0
      to the source's line count, with nothing written; after that it writes
      the subset. */
  lemma SubsetRunChecksSize(env: Env, parameters: Value, fs: FileSystem,
                            srcIn: Path, tgtIn: Path, srcOut: Path, tgtOut: Path, size: Value)
    requires parameters.Dict?
    requires Subscript(parameters, "size") == Ok(size)
    ensures var o := SubsetRun(env, parameters, fs, srcIn, tgtIn, srcOut, tgtOut);
            var seed := Get(parameters, "seed", Null).value;
            (!SeedAccepted(seed) ==> o == Outcome(fs, Failed(TypeError))) &&
            (SeedAccepted(seed) && srcIn !in fs ==> o == Outcome(fs, Failed(FileNotFound(srcIn)))) &&
            (SeedAccepted(seed) && srcIn in fs && AsInt(size).None? ==> o == Outcome(fs, Failed(TypeError))) &&
            (SeedAccepted(seed) && srcIn in fs && AsInt(size).Some? && !(0 <= AsInt(size).value <= |fs[srcIn]|) ==>
               o == Outcome(fs, Failed(ValueError))) &&
            (SeedAccepted(seed) && srcIn in fs && AsInt(size).Some? && 0 <= AsInt(size).value <= |fs[srcIn]| ==>
               o == SubsetWrite(env, seed,
                                Truthy(Get(parameters, "shuffle_target", Bool(false)).value),
                                fs, srcIn, tgtIn, srcOut, tgtOut, AsInt(size).value))
  {
  }

  /** In both modes the source output holds the source lines at the `size`
      sampled positions, in file order, and only the two outputs change. */
  lemma SubsetSource(env: Env, seed: Value, shuffle: bool, fs: FileSystem,
                     srcIn: Path, tgtIn: Path, srcOut: Path, tgtOut: Path, size: nat)
    requires srcIn in fs && tgtIn in fs
    requires srcOut != tgtOut && srcOut != srcIn && srcOut != tgtIn && tgtOut != srcIn
    requires size <= |fs[srcIn]|
    requires IsSample(env.sample(seed, 0, |fs[srcIn]|, size), |fs[srcIn]|, size)
    ensures var o := SubsetWrite(env, seed, shuffle, fs, srcIn, tgtIn, srcOut, tgtOut, size);
            var asc := PopOrder(env.sample(seed, 0, |fs[srcIn]|, size));
            o.status == Done && OthersUnchanged(fs, o.fs, {srcOut, tgtOut}) &&
            |o.fs[srcOut]| == size && StrictlyIncreasing(asc) &&
            forall j :: 0 <= j < size ==> o.fs[srcOut][j] == fs[srcIn][asc[j]]
  {
    ExtractFullSample(fs[srcIn], env.sample(seed, 0, |fs[srcIn]|, size), |fs[srcIn]|, size);
  }

  /** Without shuffling, the target output takes the target lines at the same
      positions as the source output: the subset stays parallel. */
  lemma PairedSubset(env: Env, seed: Value, fs: FileSystem,
                     srcIn: Path, tgtIn: Path, srcOut: Path, tgtOut: Path, size: nat)
    requires srcIn in fs && tgtIn in fs
    requires srcOut != tgtOut && srcOut != srcIn && srcOut != tgtIn && tgtOut != srcIn && tgtOut != tgtIn
    requires size <= |fs[srcIn]| <= |fs[tgtIn]|
    requires IsSample(env.sample(seed, 0, |fs[srcIn]|, size), |fs[srcIn]|, size)
    ensures var o := SubsetWrite(env, seed, false, fs, srcIn, tgtIn, srcOut, tgtOut, size);
            var asc := PopOrder(env.sample(seed, 0, |fs[srcIn]|, size));
            |o.fs[srcOut]| == size && |o.fs[tgtOut]| == size && StrictlyIncreasing(asc) &&
            forall j :: 0 <= j < size ==> o.fs[srcOut][j] == fs[srcIn][asc[j]] && o.fs[tgtOut][j] == fs[tgtIn][asc[j]]
  {
    var sample := env.sample(seed, 0, |fs[srcIn]|, size);
    SubsetSource(env, seed, false, fs, srcIn, tgtIn, srcOut, tgtOut, size);
    ExtractFullSample(fs[tgtIn], sample, |fs[srcIn]|, size);
  }

  /** Sampled positions 3 and 1 are visited as 1, then 3. */
  lemma PopOrderExample()
    ensures PopOrder([3, 1]) == [1, 3]
  {
    var asc := PopOrder([3, 1]);
    PopOrderOfSample([3, 1]);
    assert asc[0] in multiset([3, 1]) && asc[1] in multiset([3, 1]);
  }

  /** Four parallel lines sampled at positions 3 and 1 give lines 1 and 3 of
      both files, in file order. */
  lemma PairedSubsetExample(env: Env, seed: Value, fs: FileSystem)
    requires fs == map["src" := ["a", "b", "c", "d"], "tgt" := ["w", "x", "y", "z"]]
    requires env.sample(seed, 0, 4, 2) == [3, 1]
    ensures var o := SubsetWrite(env, seed, false, fs, "src", "tgt", "src.out", "tgt.out", 2);
            o.fs["src.out"] == ["b", "d"] && o.fs["tgt.out"] == ["x", "z"]
  {
    assert "src" != "tgt" && "src.out" != "tgt.out";
    assert "src.out" !in {"src", "tgt"} && "tgt.out" !in {"src", "tgt"};
    PairedSubsetOfFour(env, seed, fs, "src", "tgt", "src.out", "tgt.out");
  }

  /** Positions 3 and 1 sampled from four lines select lines 1 and 3. */
  lemma PairedSubsetOfFour(env: Env, seed: Value, fs: FileSystem,
                           srcIn: Path, tgtIn: Path, srcOut: Path, tgtOut: Path)
    requires srcIn in fs && tgtIn in fs && |fs[srcIn]| == 4 && |fs[tgtIn]| == 4
    requires srcOut != tgtOut && srcOut != srcIn && srcOut != tgtIn && tgtOut != srcIn && tgtOut != tgtIn
    requires env.sample(seed, 0, 4, 2) == [3, 1]
    ensures var o := SubsetWrite(env, seed, false, fs, srcIn, tgtIn, srcOut, tgtOut, 2);
            o.fs[srcOut] == [fs[srcIn][1], fs[srcIn][3]] && o.fs[tgtOut] == [fs[tgtIn][1], fs[tgtIn][3]]
  {
    assert IsSample([3, 1], 4, 2);
    PairedSubset(env, seed, fs, srcIn, tgtIn, srcOut, tgtOut, 2);
    PopOrderExample();
  }

  /** With shuffling, the target output holds the target lines at a second
      sample's positions, in whatever order the shuffle gives them. */
  lemma ShuffledSubset(env: Env, seed: Value, fs: FileSystem,
                       srcIn: Path, tgtIn: Path, srcOut: Path, tgtOut: Path, size: nat)
    requires srcIn in fs && tgtIn in fs
    requires srcOut != tgtOut && srcOut != srcIn && srcOut != tgtIn && tgtOut != srcIn && tgtOut != tgtIn
    requires size <= |fs[srcIn]| <= |fs[tgtIn]|
    requires IsSample(env.sample(seed, 1, |fs[srcIn]|, size), |fs[srcIn]|, size)
    requires var picked := Extracted(fs[tgtIn], env.sample(seed, 1, |fs[srcIn]|, size));
             multiset(env.shuffle(seed, |fs[srcIn]|, size, picked)) == multiset(picked)
    ensures var o := SubsetWrite(env, seed, true, fs, srcIn, tgtIn, srcOut, tgtOut, size);
            var asc2 := PopOrder(env.sample(seed, 1, |fs[srcIn]|, size));
            |asc2| == size && StrictlyIncreasing(asc2) &&
            (forall j :: 0 <= j < size ==> 0 <= asc2[j] < |fs[tgtIn]|) &&
            multiset(o.fs[tgtOut]) == multiset(seq(size, j requires 0 <= j < size => fs[tgtIn][asc2[j]]))
  {
    var sample2 := env.sample(seed, 1, |fs[srcIn]|, size);
    var picked := Extracted(fs[tgtIn], sample2);
    ShuffledTarget(env, seed, fs, srcIn, tgtIn, srcOut, tgtOut, size);
    ExtractFullSample(fs[tgtIn], sample2, |fs[srcIn]|, size);
    var asc2 := PopOrder(sample2);
    assert picked == seq(size, j requires 0 <= j < size => fs[tgtIn][asc2[j]]);
  }

  /** With shuffling, the target output holds the shuffled lines of the second sample. */
  lemma ShuffledTarget(env: Env, seed: Value, fs: FileSystem,
                       srcIn: Path, tgtIn: Path, srcOut: Path, tgtOut: Path, size: nat)
    requires srcIn in fs && tgtIn in fs && srcOut != tgtIn
    ensures var o := SubsetWrite(env, seed, true, fs, srcIn, tgtIn, srcOut, tgtOut, size);
            o.fs[tgtOut] == env.shuffle(seed, |fs[srcIn]|, size, Extracted(fs[tgtIn], env.sample(seed, 1, |fs[srcIn]|, size)))
  {
  }

  // ---------------------------------------------------------------------
  // `score`

  /** A rewritten filter list `from_config` rejects stops `score` before its
      output is opened; otherwise `score` writes one score per source line
      into its output, which is the only file it changes. */
  lemma ScoreRunWrites(env: Env, dir: Path, parameters: Value, fs: FileSystem, out: Path, srcIn: Path, tgtIn: Path)
    requires Subscript(parameters, "filters").Ok?
    requires RewriteFilters(dir, Subscript(parameters, "filters").value).Ok?
    requires InputPaths(dir, parameters) == Ok((srcIn, tgtIn))
    requires srcIn in fs && tgtIn in fs && srcIn != out && tgtIn != out
    ensures var o := ScoreRun(env, dir, parameters, fs, out);
            var pipe := env.fromConfig(RewriteFilters(dir, Subscript(parameters, "filters").value).value);
            pipe.Err? ==> o == Outcome(fs, Failed(pipe.error))
    ensures var o := ScoreRun(env, dir, parameters, fs, out);
            var pipe := env.fromConfig(RewriteFilters(dir, Subscript(parameters, "filters").value).value);
            pipe.Ok? ==>
            var pairs := ReadPairs(fs, (srcIn, tgtIn)).value;
            o.status == Done && OthersUnchanged(fs, o.fs, {out}) &&
            |pairs| == |fs[srcIn]| && o.fs[out] == pipe.value.score(pairs)
  {
    var fs1 := fs[out := []];
    assert ReadPairs(fs1, (srcIn, tgtIn)) == ReadPairs(fs, (srcIn, tgtIn));
  }

  /** A filter list that cannot be rewritten stops `score` before its output is opened. */
  lemma ScoreRewriteErrorWritesNothing(env: Env, dir: Path, parameters: Value, fs: FileSystem, out: Path)
    requires Subscript(parameters, "filters").Ok?
    requires RewriteFilters(dir, Subscript(parameters, "filters").value).Err?
    ensures ScoreRun(env, dir, parameters, fs, out) ==
            Outcome(fs, Failed(RewriteFilters(dir, Subscript(parameters, "filters").value).error))
  {
  }

  // ---------------------------------------------------------------------
  // `order_by_rank`

  /** Under the default output directory ".", the raw names `order_by_rank`
      opens are the files the other steps name by joining: `./s` is `s`. */
  lemma RawPathUnderDefaultDir(parameters: Value, key: string)
    ensures RawPath(parameters, key) == JoinedParam(".", parameters, key)
  {
    var v := Subscript(parameters, key);
    if v.Ok? && v.value.Str? {
      DotJoinSameFile(v.value.s);
    }
  }

  /** With its six names resolved and its inputs present, `order_by_rank`
      truncates the three outputs and then writes the ranked columns of the
      truncated files. */
  lemma OrderByRankUnfold(parameters: Value, fs: FileSystem,
                          inSrc: Path, inTgt: Path, inRanks: Path, outSrc: Path, outTgt: Path, outRanks: Path)
    requires RawPath(parameters, "input_src") == Ok(inSrc)
    requires RawPath(parameters, "input_tgt") == Ok(inTgt)
    requires RawPath(parameters, "input_ranks") == Ok(inRanks)
    requires RawPath(parameters, "output_src") == Ok(outSrc)
    requires RawPath(parameters, "output_tgt") == Ok(outTgt)
    requires RawPath(parameters, "output_ranks") == Ok(outRanks)
    requires inSrc in fs && inTgt in fs && inRanks in fs
    ensures var fs3 := fs[outSrc := []][outTgt := []][outRanks := []];
            var cols := RankedColumns(fs3[inSrc], fs3[inTgt], fs3[inRanks]);
            OrderByRank(parameters, fs) == Outcome(fs3[outSrc := cols.0][outTgt := cols.1][outRanks := cols.2], Done)
  {
  }

  /** `order_by_rank` rewrites its outputs whether or not they exist: each
      output column holds the zipped rows sorted by rank, highest first, as
      many rows as the shortest input. */
  lemma OrderByRankWrites(parameters: Value, fs: FileSystem,
                          inSrc: Path, inTgt: Path, inRanks: Path, outSrc: Path, outTgt: Path, outRanks: Path)
    requires RawPath(parameters, "input_src") == Ok(inSrc)
    requires RawPath(parameters, "input_tgt") == Ok(inTgt)
    requires RawPath(parameters, "input_ranks") == Ok(inRanks)
    requires RawPath(parameters, "output_src") == Ok(outSrc)
    requires RawPath(parameters, "output_tgt") == Ok(outTgt)
    requires RawPath(parameters, "output_ranks") == Ok(outRanks)
    requires inSrc in fs && inTgt in fs && inRanks in fs
    requires outSrc != outTgt && outSrc != outRanks && outTgt != outRanks
    requires {inSrc, inTgt, inRanks} !! {outSrc, outTgt, outRanks}
    ensures var o := OrderByRank(parameters, fs);
            var cols := RankedColumns(fs[inSrc], fs[inTgt], fs[inRanks]);
            o.status == Done && OthersUnchanged(fs, o.fs, {outSrc, outTgt, outRanks}) &&
            o.fs[outSrc] == cols.0 && o.fs[outTgt] == cols.1 && o.fs[outRanks] == cols.2 &&
            |o.fs[outSrc]| == Min3(|fs[inSrc]|, |fs[inTgt]|, |fs[inRanks]|) &&
            forall i, j :: 0 <= i < j < |o.fs[outRanks]| ==> !StrLess(o.fs[outRanks][i], o.fs[outRanks][j])
  {
    OrderByRankUnfold(parameters, fs, inSrc, inTgt, inRanks, outSrc, outTgt, outRanks);
    var fs3 := fs[outSrc := []][outTgt := []][outRanks := []];
    assert fs3[inSrc] == fs[inSrc] && fs3[inTgt] == fs[inTgt] && fs3[inRanks] == fs[inRanks];
    var cols := RankedColumns(fs[inSrc], fs[inTgt], fs[inRanks]);
    var fs' := fs3[outSrc := cols.0][outTgt := cols.1][outRanks := cols.2];
    assert OrderByRank(parameters, fs) == Outcome(fs', Done);
    assert fs'[outSrc] == cols.0 && fs'[outTgt] == cols.1 && fs'[outRanks] == cols.2;
    assert OthersUnchanged(fs, fs', {outSrc, outTgt, outRanks});
    RankedColumnsFacts(fs[inSrc], fs[inTgt], fs[inRanks]);
  }

  /** All three outputs are truncated before any input is read, so when an
      output is named like an input that input reads back empty, `zip` stops
      at once, and every output comes out empty. */
  lemma OrderByRankOverInput(parameters: Value, fs: FileSystem,
                             inSrc: Path, inTgt: Path, inRanks: Path, outSrc: Path, outTgt: Path, outRanks: Path)
    requires RawPath(parameters, "input_src") == Ok(inSrc)
    requires RawPath(parameters, "input_tgt") == Ok(inTgt)
    requires RawPath(parameters, "input_ranks") == Ok(inRanks)
    requires RawPath(parameters, "output_src") == Ok(outSrc)
    requires RawPath(parameters, "output_tgt") == Ok(outTgt)
    requires RawPath(parameters, "output_ranks") == Ok(outRanks)
    requires inSrc in fs && inTgt in fs && inRanks in fs
    requires {outSrc, outTgt, outRanks} * {inSrc, inTgt, inRanks} != {}
    ensures var o := OrderByRank(parameters, fs);
            o.status == Done && o.fs[outSrc] == [] && o.fs[outTgt] == [] && o.fs[outRanks] == []
  {
    OrderByRankUnfold(parameters, fs, inSrc, inTgt, inRanks, outSrc, outTgt, outRanks);
    var fs3 := fs[outSrc := []][outTgt := []][outRanks := []];
    assert fs3[inSrc] == [] || fs3[inTgt] == [] || fs3[inRanks] == [];
    assert Zip3(fs3[inSrc], fs3[inTgt], fs3[inRanks]) == [];
    var cols := RankedColumns(fs3[inSrc], fs3[inTgt], fs3[inRanks]);
    assert cols.0 == [] && cols.1 == [] && cols.2 == [];
    var fs' := fs3[outSrc := cols.0][outTgt := cols.1][outRanks := cols.2];
    assert fs'[outSrc] == [] && fs'[outTgt] == [] && fs'[outRanks] == [];
  }
}
