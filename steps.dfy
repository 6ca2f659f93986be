/** The step handlers of `OpusFilter`. Each one takes the step's `parameters`,
    the `overwrite` flag and the file system, and yields the file system it
    leaves behind together with how it ended: done, skipped because its
    outputs exist, or failed with an exception (the file system is then the
    one at the moment of the exception). */
module Steps {
  import opened PyValues
  import opened Files
  import opened PairStream
  import opened Subset
  import opened RankOrder
  import opened ScoreConfig

  datatype Status = Done | Skipped | Failed(error: Error)

  datatype Outcome = Outcome(fs: FileSystem, status: Status)

  /** What `pipeline.FilterPipeline.from_config(filters)` builds: the filters
      themselves are not part of this model, only the three streams they
      offer. `Env.fromConfig` gives the exception instead for a configuration
      it rejects. */
  datatype Pipeline = Pipeline(
    filter: seq<Pair> -> seq<Pair>,
    filterfalse: seq<Pair> -> seq<Pair>,
    score: seq<Pair> -> seq<Line>)

  /** The collaborators a handler calls out to. `sample(seed, draw, total, size)`
      stands for the `draw`-th `random.sample(range(total), size)` after
      `random.seed(seed)`; `shuffle(seed, total, size, lines)` for
      `random.shuffle(lines)` after the two draws of a shuffled subset;
      `foreign(name, parameters, fs)` for a step whose work is done by code
      outside this model. Each is a fixed function of its arguments, so two
      runs over the same `Env` draw the same samples. The code itself
      repeats its draws only for a seed other than `None` (`random.seed(None)`
      seeds from the operating system) and foreign steps only when they are
      deterministic. */
  datatype Env = Env(
    fromConfig: Value -> Result<Pipeline>,
    sample: (Value, nat, nat, nat) -> seq<int>,
    shuffle: (Value, nat, nat, seq<Line>) -> seq<Line>,
    foreign: (string, Value, FileSystem) -> Outcome)

  function Fail(fs: FileSystem, e: Error): Outcome {
    Outcome(fs, Failed(e))
  }

  /** The skip guard: without `overwrite`, a step whose outputs all exist does nothing. */
  predicate Skips(overwrite: bool, fs: FileSystem, outputs: seq<Path>) {
    !overwrite && forall p :: p in outputs ==> p in fs
  }

  /** The file `os.path.join(output_dir, parameters[key])` names. */
  function JoinedParam(dir: Path, parameters: Value, key: string): (r: Result<Path>)
    ensures r.Ok? <==> Subscript(parameters, key).Ok? && Subscript(parameters, key).value.Str?
    ensures r.Ok? ==> r.value == Canon(Join(dir, Subscript(parameters, key).value.s))
    ensures Subscript(parameters, key).Err? ==> r == Err(Subscript(parameters, key).error)
  {
    var v :- Subscript(parameters, key);
    JoinFile(dir, v)
  }

  /** `get_pairs(parameters['src_input'], parameters['tgt_input'])`. */
  function InputPaths(dir: Path, parameters: Value): (r: Result<(Path, Path)>)
    ensures r.Ok? ==> parameters.Dict? &&
                      Subscript(parameters, "src_input").Ok? && Subscript(parameters, "tgt_input").Ok? &&
                      r == PairPaths(dir, Subscript(parameters, "src_input").value, Subscript(parameters, "tgt_input").value)
    ensures Subscript(parameters, "src_input").Err? ==> r == Err(Subscript(parameters, "src_input").error)
    ensures Subscript(parameters, "src_input").Ok? && Subscript(parameters, "tgt_input").Err? ==>
              r == Err(Subscript(parameters, "tgt_input").error)
  {
    var src :- Subscript(parameters, "src_input");
    var tgt :- Subscript(parameters, "tgt_input");
    PairPaths(dir, src, tgt)
  }

  // ---------------------------------------------------------------------
  // `read_from_opus`, `train_ngram`, `train_alignment`, `classify`

  function ReadFromOpus(env: Env, dir: Path, parameters: Value, overwrite: bool, fs: FileSystem): (r: Outcome)
    ensures JoinedParam(dir, parameters, "src_output").Ok? && JoinedParam(dir, parameters, "tgt_output").Ok? &&
              Skips(overwrite, fs, [JoinedParam(dir, parameters, "src_output").value, JoinedParam(dir, parameters, "tgt_output").value]) ==>
              r == Outcome(fs, Skipped)
    ensures r != env.foreign("opus_read", parameters, fs) ==> r.fs == fs
  {
    var srcOut := JoinedParam(dir, parameters, "src_output");
    var tgtOut := JoinedParam(dir, parameters, "tgt_output");
    if srcOut.Err? then Fail(fs, srcOut.error)
    else if tgtOut.Err? then Fail(fs, tgtOut.error)
    else if Skips(overwrite, fs, [srcOut.value, tgtOut.value]) then Outcome(fs, Skipped)
    else env.foreign("opus_read", parameters, fs)
  }

  function TrainNgram(env: Env, dir: Path, parameters: Value, overwrite: bool, fs: FileSystem): (r: Outcome)
    ensures JoinedParam(dir, parameters, "model").Ok? && Skips(overwrite, fs, [JoinedParam(dir, parameters, "model").value]) ==>
              r == Outcome(fs, Skipped)
    ensures r != env.foreign("train_ngram", parameters, fs) ==> r.fs == fs
  {
    var out := JoinedParam(dir, parameters, "model");
    if out.Err? then Fail(fs, out.error)
    else if Skips(overwrite, fs, [out.value]) then Outcome(fs, Skipped)
    else env.foreign("train_ngram", parameters, fs)
  }

  function TrainAlignment(env: Env, dir: Path, parameters: Value, overwrite: bool, fs: FileSystem): (r: Outcome)
    ensures JoinedParam(dir, parameters, "output").Ok? && Skips(overwrite, fs, [JoinedParam(dir, parameters, "output").value]) ==>
              r == Outcome(fs, Skipped)
    ensures r != env.foreign("train_alignment", parameters, fs) ==> r.fs == fs
  {
    var out := JoinedParam(dir, parameters, "output");
    if out.Err? then Fail(fs, out.error)
    else if Skips(overwrite, fs, [out.value]) then Outcome(fs, Skipped)
    else env.foreign("train_alignment", parameters, fs)
  }

  /** `classify` has no skip guard. */
  function Classify(env: Env, parameters: Value, fs: FileSystem): Outcome {
    env.foreign("classify", parameters, fs)
  }

  // ---------------------------------------------------------------------
  // `filter_data`

  function Firsts(pairs: seq<Pair>): (r: seq<Line>)
    ensures |r| == |pairs| && forall i :: 0 <= i < |pairs| ==> r[i] == pairs[i].0
  {
    seq(|pairs|, i requires 0 <= i < |pairs| => pairs[i].0)
  }

  function Seconds(pairs: seq<Pair>): (r: seq<Line>)
    ensures |r| == |pairs| && forall i :: 0 <= i < |pairs| ==> r[i] == pairs[i].1
  {
    seq(|pairs|, i requires 0 <= i < |pairs| => pairs[i].1)
  }

  /** How many of `n` pairs the write loop writes under `limit`, and whether
      it then fails: the loop stops after pair `idx` once `idx >= limit - 1`,
      a falsy limit never stops it, and a truthy limit that is not a number
      fails the comparison right after the first pair. */
  function LimitedCount(n: nat, limit: Value): (r: (nat, bool))
    ensures r.0 <= n
    ensures n == 0 || !Truthy(limit) ==> r == (n, false)
    ensures n > 0 && Truthy(limit) && AsInt(limit).Some? ==>
              !r.1 && r.0 >= 1 && (r.0 == n || r.0 >= AsInt(limit).value) && (r.0 > 1 ==> r.0 - 1 < AsInt(limit).value)
    ensures n > 0 && Truthy(limit) && AsInt(limit).None? ==> r == (1, true)
  {
    if n == 0 || !Truthy(limit) then (n, false)
    else
      match AsInt(limit)
      case Some(m) => (if m <= 1 then 1 else if m < n then m else n, false)
      case None => (1, true)
  }

  /** What the write loop leaves: both outputs hold the first pairs of the
      selected stream, one column each. */
  function LimitedWrite(fs: FileSystem, srcOut: Path, tgtOut: Path, pairs: seq<Pair>, limit: Value): (r: Outcome)
    ensures r.status == Done || r.status == Failed(TypeError)
    ensures srcOut in r.fs && tgtOut in r.fs
    ensures srcOut != tgtOut ==>
              |r.fs[srcOut]| == |r.fs[tgtOut]| <= |pairs| &&
              forall i :: 0 <= i < |r.fs[srcOut]| ==> (r.fs[srcOut][i], r.fs[tgtOut][i]) == pairs[i]
    ensures !Truthy(limit) ==> r.status == Done && |r.fs[tgtOut]| == |pairs|
    ensures r.status.Failed? ==> |r.fs[tgtOut]| == 1
  {
    var (count, fails) := LimitedCount(|pairs|, limit);
    Outcome(fs[srcOut := Firsts(pairs[..count])][tgtOut := Seconds(pairs[..count])],
            if fails then Failed(TypeError) else Done)
  }

  /** The `for idx, pair in enumerate(pairs)` loop of `filter_data`. */
  method WriteLimited(fs: FileSystem, srcOut: Path, tgtOut: Path, pairs: seq<Pair>, limit: Value)
    returns (o: Outcome)
    ensures o == LimitedWrite(fs, srcOut, tgtOut, pairs, limit)
  {
    var src: seq<Line> := [];
    var tgt: seq<Line> := [];
    var idx := 0;
    while idx < |pairs|
      invariant 0 <= idx <= |pairs|
      invariant src == Firsts(pairs[..idx]) && tgt == Seconds(pairs[..idx])
      invariant idx > 0 ==> !Truthy(limit) || (AsInt(limit).Some? && idx < AsInt(limit).value)
    {
      src := src + [pairs[idx].0];
      tgt := tgt + [pairs[idx].1];
      assert pairs[..idx + 1] == pairs[..idx] + [pairs[idx]];
      assert src == Firsts(pairs[..idx + 1]) && tgt == Seconds(pairs[..idx + 1]);
      if Truthy(limit) {
        match AsInt(limit)
        case None =>
          return Outcome(fs[srcOut := src][tgtOut := tgt], Failed(TypeError));
        case Some(m) =>
          if idx >= m - 1 {
            assert LimitedCount(|pairs|, limit) == (idx + 1, false);
            return Outcome(fs[srcOut := src][tgtOut := tgt], Done);
          }
      }
      idx := idx + 1;
    }
    assert pairs[..idx] == pairs;
    return Outcome(fs[srcOut := src][tgtOut := tgt], Done);
  }

  /** `filter_data` from the point where the outputs are known not to be skipped. */
  function FilterRun(env: Env, dir: Path, parameters: Value, fs: FileSystem, srcOut: Path, tgtOut: Path): (r: Outcome)
    ensures r.status != Skipped
  {
    var filters := Subscript(parameters, "filters");
    if filters.Err? then Fail(fs, filters.error)
    else
      var pipe := env.fromConfig(filters.value);
      if pipe.Err? then Fail(fs, pipe.error)
      else
      var flag := Get(parameters, "filterfalse", Bool(false)).value;
      var names := InputPaths(dir, parameters);
      if names.Err? then Fail(fs, names.error)
      else
        var limit := Get(parameters, "limit", Null).value;
        // both outputs are opened for writing before the first pair is read
        var fs1 := Truncate(fs, [srcOut, tgtOut]);
        var pairs := ReadPairs(fs1, names.value);
        if pairs.Err? then Fail(fs1, pairs.error)
        else
          var selected := if Truthy(flag) then pipe.value.filterfalse(pairs.value) else pipe.value.filter(pairs.value);
          LimitedWrite(fs1, srcOut, tgtOut, selected, limit)
  }

  function FilterData(env: Env, dir: Path, parameters: Value, overwrite: bool, fs: FileSystem): (r: Outcome)
    ensures r.status == Skipped <==>
              JoinedParam(dir, parameters, "src_output").Ok? && JoinedParam(dir, parameters, "tgt_output").Ok? &&
              Skips(overwrite, fs, [JoinedParam(dir, parameters, "src_output").value, JoinedParam(dir, parameters, "tgt_output").value])
    ensures r.status == Skipped ==> r.fs == fs
  {
    var srcOut := JoinedParam(dir, parameters, "src_output");
    var tgtOut := JoinedParam(dir, parameters, "tgt_output");
    if srcOut.Err? then Fail(fs, srcOut.error)
    else if tgtOut.Err? then Fail(fs, tgtOut.error)
    else if Skips(overwrite, fs, [srcOut.value, tgtOut.value]) then Outcome(fs, Skipped)
    else FilterRun(env, dir, parameters, fs, srcOut.value, tgtOut.value)
  }

  method RunFilterData(env: Env, dir: Path, parameters: Value, overwrite: bool, fs: FileSystem) returns (o: Outcome)
    ensures o == FilterData(env, dir, parameters, overwrite, fs)
  {
    var srcOutR := JoinedParam(dir, parameters, "src_output");
    if srcOutR.Err? {
      return Fail(fs, srcOutR.error);
    }
    var tgtOutR := JoinedParam(dir, parameters, "tgt_output");
    if tgtOutR.Err? {
      return Fail(fs, tgtOutR.error);
    }
    var srcOut, tgtOut := srcOutR.value, tgtOutR.value;
    if Skips(overwrite, fs, [srcOut, tgtOut]) {
      return Outcome(fs, Skipped);
    }
    var filters := Subscript(parameters, "filters");
    if filters.Err? {
      return Fail(fs, filters.error);
    }
    var pipe := env.fromConfig(filters.value);
    if pipe.Err? {
      return Fail(fs, pipe.error);
    }
    var flag := Get(parameters, "filterfalse", Bool(false)).value;
    var names := InputPaths(dir, parameters);
    if names.Err? {
      return Fail(fs, names.error);
    }
    var limit := Get(parameters, "limit", Null).value;
    var fs1 := Truncate(fs, [srcOut, tgtOut]);
    var pairs := ReadPairs(fs1, names.value);
    if pairs.Err? {
      return Fail(fs1, pairs.error);
    }
    var selected := if Truthy(flag) then pipe.value.filterfalse(pairs.value) else pipe.value.filter(pairs.value);
    o := WriteLimited(fs1, srcOut, tgtOut, selected, limit);
  }

  // ---------------------------------------------------------------------
  // `concatenate`

  /** Appending each input file to `out` in list order; each input is read as
      it stands when it is opened. */
  function ConcatInputs(dir: Path, out: Path, inputs: seq<Value>, fs: FileSystem): (r: Outcome)
    requires out in fs
    ensures r.status != Skipped
    decreases |inputs|
  {
    if inputs == [] then Outcome(fs, Done)
    else
      var path := JoinFile(dir, inputs[0]);
      if path.Err? then Fail(fs, path.error)
      else
        var lines := ReadFile(fs, path.value);
        if lines.Err? then Fail(fs, lines.error)
        else ConcatInputs(dir, out, inputs[1..], fs[out := fs[out] + lines.value])
  }

  /** `concatenate` once the output is known and the step is not skipped. */
  function ConcatRun(dir: Path, parameters: Value, fs: FileSystem, out: Path): (r: Outcome)
    ensures r.status != Skipped
  {
    // the output is opened before `parameters['inputs']` is looked up
    var fs1 := fs[out := []];
    var inputs := Subscript(parameters, "inputs");
    if inputs.Err? then Fail(fs1, inputs.error)
    else
      var items := Iterate(inputs.value);
      if items.Err? then Fail(fs1, items.error)
      else ConcatInputs(dir, out, items.value, fs1)
  }

  function Concatenate(dir: Path, parameters: Value, overwrite: bool, fs: FileSystem): (r: Outcome)
    ensures r.status == Skipped <==>
              JoinedParam(dir, parameters, "output").Ok? && Skips(overwrite, fs, [JoinedParam(dir, parameters, "output").value])
    ensures r.status == Skipped ==> r.fs == fs
  {
    var out := JoinedParam(dir, parameters, "output");
    if out.Err? then Fail(fs, out.error)
    else if Skips(overwrite, fs, [out.value]) then Outcome(fs, Skipped)
    else ConcatRun(dir, parameters, fs, out.value)
  }

  /** The nested `for infile in inputs: for line in inf: outf.write(line)` loops. */
  method ConcatLoop(dir: Path, out: Path, inputs: seq<Value>, fs: FileSystem) returns (o: Outcome)
    requires out in fs
    ensures o == ConcatInputs(dir, out, inputs, fs)
  {
    var cur := fs;
    var i := 0;
    while i < |inputs|
      invariant 0 <= i <= |inputs|
      invariant out in cur
      invariant ConcatInputs(dir, out, inputs, fs) == ConcatInputs(dir, out, inputs[i..], cur)
    {
      assert inputs[i..][1..] == inputs[i + 1..];
      var path := JoinFile(dir, inputs[i]);
      if path.Err? {
        return Fail(cur, path.error);
      }
      var lines := ReadFile(cur, path.value);
      if lines.Err? {
        return Fail(cur, lines.error);
      }
      ghost var before := cur;
      assert before[out] + lines.value[..0] == before[out];
      assert before[out := before[out]] == before;
      var j := 0;
      while j < |lines.value|
        invariant 0 <= j <= |lines.value|
        invariant cur == before[out := before[out] + lines.value[..j]]
      {
        assert lines.value[..j + 1] == lines.value[..j] + [lines.value[j]];
        assert before[out] + lines.value[..j + 1] == cur[out] + [lines.value[j]];
        cur := cur[out := cur[out] + [lines.value[j]]];
        j := j + 1;
      }
      assert lines.value[..j] == lines.value;
      i := i + 1;
    }
    return Outcome(cur, Done);
  }

  method RunConcatenate(dir: Path, parameters: Value, overwrite: bool, fs: FileSystem) returns (o: Outcome)
    ensures o == Concatenate(dir, parameters, overwrite, fs)
  {
    var outR := JoinedParam(dir, parameters, "output");
    if outR.Err? {
      return Fail(fs, outR.error);
    }
    var out := outR.value;
    if Skips(overwrite, fs, [out]) {
      return Outcome(fs, Skipped);
    }
    var fs1 := fs[out := []];
    var inputs := Subscript(parameters, "inputs");
    if inputs.Err? {
      return Fail(fs1, inputs.error);
    }
    var items := Iterate(inputs.value);
    if items.Err? {
      return Fail(fs1, items.error);
    }
    o := ConcatLoop(dir, out, items.value, fs1);
  }

  // ---------------------------------------------------------------------
  // `get_subset`

  /** The checks `random.sample(range(total), size)` makes on `size`. */
  function SampleSize(size: Value, total: nat): (r: Result<nat>)
    ensures AsInt(size).None? ==> r == Err(TypeError)
    ensures AsInt(size).Some? ==> (r.Ok? <==> 0 <= AsInt(size).value <= total)
    ensures r.Ok? ==> r.value == AsInt(size).value
    ensures r.Err? && AsInt(size).Some? ==> r.error == ValueError
  {
    match AsInt(size)
    case None => Err(TypeError)
    case Some(k) => if 0 <= k <= total then Ok(k) else Err(ValueError)
  }

  /** `get_subset` from the draw of the sample on: `size` lines of the
      source input at the sampled positions go to the source output, then the
      target output gets the target lines at the same positions, or, when
      shuffling, the lines at a second sample's positions in shuffled order. */
  function SubsetWrite(env: Env, seed: Value, shuffle: bool, fs: FileSystem,
                       srcIn: Path, tgtIn: Path, srcOut: Path, tgtOut: Path, size: nat): (r: Outcome)
    requires srcIn in fs
    ensures r.status != Skipped
  {
    var total := |fs[srcIn]|;
    var sample := env.sample(seed, 0, total, size);
    var fs1 := fs[srcOut := []];
    var fs2 := fs1[srcOut := Extracted(fs1[srcIn], sample)];
    if tgtIn !in fs2 then Fail(fs2, FileNotFound(tgtIn))
    else if shuffle then
      // a second, independent sample; the target output is opened after reading
      var picked := Extracted(fs2[tgtIn], env.sample(seed, 1, total, size));
      Outcome(fs2[tgtOut := env.shuffle(seed, total, size, picked)], Done)
    else
      var fs3 := fs2[tgtOut := []];
      Outcome(fs3[tgtOut := Extracted(fs3[tgtIn], sample)], Done)
  }

  /** `random.seed(a)` takes `None`, an integer (a boolean among them) or a
      string; a list or a dictionary raises `TypeError`. */
  predicate SeedAccepted(seed: Value) {
    !(seed.List? || seed.Dict?)
  }

  /** `get_subset` once the four paths are known and the step is not skipped:
      the seed is set before `size` is read or any file is opened. */
  function SubsetRun(env: Env, parameters: Value, fs: FileSystem,
                     srcIn: Path, tgtIn: Path, srcOut: Path, tgtOut: Path): (r: Outcome)
    requires parameters.Dict?
    ensures r.status != Skipped
  {
    var seed := Get(parameters, "seed", Null).value;
    if !SeedAccepted(seed) then Fail(fs, TypeError)
    else
    var size := Subscript(parameters, "size");
    if size.Err? then Fail(fs, size.error)
    else
      var shuffle := Get(parameters, "shuffle_target", Bool(false)).value;
      if srcIn !in fs then Fail(fs, FileNotFound(srcIn))
      else
        var k := SampleSize(size.value, |fs[srcIn]|);
        if k.Err? then Fail(fs, k.error)
        else SubsetWrite(env, seed, Truthy(shuffle), fs, srcIn, tgtIn, srcOut, tgtOut, k.value)
  }

  function GetSubset(env: Env, dir: Path, parameters: Value, overwrite: bool, fs: FileSystem): (r: Outcome)
    ensures r.status == Skipped <==>
              JoinedParam(dir, parameters, "src_input").Ok? && JoinedParam(dir, parameters, "tgt_input").Ok? && JoinedParam(dir, parameters, "src_output").Ok? && JoinedParam(dir, parameters, "tgt_output").Ok? &&
              Skips(overwrite, fs, [JoinedParam(dir, parameters, "src_output").value, JoinedParam(dir, parameters, "tgt_output").value])
    ensures r.status == Skipped ==> r.fs == fs
  {
    var srcIn := JoinedParam(dir, parameters, "src_input");
    var tgtIn := JoinedParam(dir, parameters, "tgt_input");
    var srcOut := JoinedParam(dir, parameters, "src_output");
    var tgtOut := JoinedParam(dir, parameters, "tgt_output");
    if srcIn.Err? then Fail(fs, srcIn.error)
    else if tgtIn.Err? then Fail(fs, tgtIn.error)
    else if srcOut.Err? then Fail(fs, srcOut.error)
    else if tgtOut.Err? then Fail(fs, tgtOut.error)
    else if Skips(overwrite, fs, [srcOut.value, tgtOut.value]) then Outcome(fs, Skipped)
    else SubsetRun(env, parameters, fs, srcIn.value, tgtIn.value, srcOut.value, tgtOut.value)
  }

  method RunGetSubset(env: Env, dir: Path, parameters: Value, overwrite: bool, fs: FileSystem) returns (o: Outcome)
    ensures o == GetSubset(env, dir, parameters, overwrite, fs)
  {
    var srcInR := JoinedParam(dir, parameters, "src_input");
    if srcInR.Err? {
      return Fail(fs, srcInR.error);
    }
    var tgtInR := JoinedParam(dir, parameters, "tgt_input");
    if tgtInR.Err? {
      return Fail(fs, tgtInR.error);
    }
    var srcOutR := JoinedParam(dir, parameters, "src_output");
    if srcOutR.Err? {
      return Fail(fs, srcOutR.error);
    }
    var tgtOutR := JoinedParam(dir, parameters, "tgt_output");
    if tgtOutR.Err? {
      return Fail(fs, tgtOutR.error);
    }
    var srcIn, tgtIn, srcOut, tgtOut := srcInR.value, tgtInR.value, srcOutR.value, tgtOutR.value;
    if Skips(overwrite, fs, [srcOut, tgtOut]) {
      return Outcome(fs, Skipped);
    }
    var seed := Get(parameters, "seed", Null).value;
    if !SeedAccepted(seed) {
      return Fail(fs, TypeError);
    }
    var size := Subscript(parameters, "size");
    if size.Err? {
      return Fail(fs, size.error);
    }
    var shuffle := Get(parameters, "shuffle_target", Bool(false)).value;
    var total := TotalLines(fs, srcIn);
    if total.Err? {
      return Fail(fs, total.error);
    }
    var k := SampleSize(size.value, total.value);
    if k.Err? {
      return Fail(fs, k.error);
    }
    var sample := env.sample(seed, 0, total.value, k.value);
    var fs1 := fs[srcOut := []];
    var picked, _ := YieldSubset(fs1[srcIn], sample);
    var fs2 := fs1[srcOut := picked];
    if tgtIn !in fs2 {
      return Fail(fs2, FileNotFound(tgtIn));
    }
    if Truthy(shuffle) {
      var lines, _ := YieldSubset(fs2[tgtIn], env.sample(seed, 1, total.value, k.value));
      return Outcome(fs2[tgtOut := env.shuffle(seed, total.value, k.value, lines)], Done);
    }
    var fs3 := fs2[tgtOut := []];
    var lines, _ := YieldSubset(fs3[tgtIn], sample);
    return Outcome(fs3[tgtOut := lines], Done);
  }

  // ---------------------------------------------------------------------
  // `score_data`

  /** `score_data` once the output is known and the step is not skipped. */
  function ScoreRun(env: Env, dir: Path, parameters: Value, fs: FileSystem, out: Path): (r: Outcome)
    ensures r.status != Skipped
  {
    var filters := Subscript(parameters, "filters");
    if filters.Err? then Fail(fs, filters.error)
    else
      var rewritten := RewriteFilters(dir, filters.value);
      if rewritten.Err? then Fail(fs, rewritten.error)
      else
        var names := InputPaths(dir, parameters);
        if names.Err? then Fail(fs, names.error)
        else
          var pipe := env.fromConfig(rewritten.value);
          if pipe.Err? then Fail(fs, pipe.error)
          else
          var fs1 := fs[out := []];
          var pairs := ReadPairs(fs1, names.value);
          if pairs.Err? then Fail(fs1, pairs.error)
          else Outcome(fs1[out := pipe.value.score(pairs.value)], Done)
  }

  function ScoreData(env: Env, dir: Path, parameters: Value, overwrite: bool, fs: FileSystem): (r: Outcome)
    ensures r.status == Skipped <==>
              JoinedParam(dir, parameters, "output").Ok? && Skips(overwrite, fs, [JoinedParam(dir, parameters, "output").value])
    ensures r.status == Skipped ==> r.fs == fs
  {
    var out := JoinedParam(dir, parameters, "output");
    if out.Err? then Fail(fs, out.error)
    else if Skips(overwrite, fs, [out.value]) then Outcome(fs, Skipped)
    else ScoreRun(env, dir, parameters, fs, out.value)
  }

  method RunScoreData(env: Env, dir: Path, parameters: Value, overwrite: bool, fs: FileSystem) returns (o: Outcome)
    ensures o == ScoreData(env, dir, parameters, overwrite, fs)
  {
    var outR := JoinedParam(dir, parameters, "output");
    if outR.Err? {
      return Fail(fs, outR.error);
    }
    var out := outR.value;
    if Skips(overwrite, fs, [out]) {
      return Outcome(fs, Skipped);
    }
    assert ScoreData(env, dir, parameters, overwrite, fs) == ScoreRun(env, dir, parameters, fs, out);
    var filters := Subscript(parameters, "filters");
    if filters.Err? {
      return Fail(fs, filters.error);
    }
    var rewritten: Result<Value>;
    if filters.value.List? {
      var items := RewriteFilterList(dir, filters.value.items);
      rewritten := if items.Err? then Err(items.error) else Ok(List(items.value));
    } else {
      rewritten := RewriteFilters(dir, filters.value);
    }
    assert rewritten == RewriteFilters(dir, filters.value);
    if rewritten.Err? {
      return Fail(fs, rewritten.error);
    }
    var names := InputPaths(dir, parameters);
    if names.Err? {
      return Fail(fs, names.error);
    }
    var pipe := env.fromConfig(rewritten.value);
    if pipe.Err? {
      return Fail(fs, pipe.error);
    }
    var fs1 := fs[out := []];
    var pairs := ReadPairs(fs1, names.value);
    if pairs.Err? {
      return Fail(fs1, pairs.error);
    }
    return Outcome(fs1[out := pipe.value.score(pairs.value)], Done);
  }

  // ---------------------------------------------------------------------
  // `order_by_rank`

  /** The file `open(parameters[key])` names: the name is used as it is,
      without the output directory. */
  function RawPath(parameters: Value, key: string): (r: Result<Path>)
    ensures r.Ok? <==> Subscript(parameters, key).Ok? && Subscript(parameters, key).value.Str?
    ensures r.Ok? ==> r.value == Canon(Subscript(parameters, key).value.s)
  {
    var v :- Subscript(parameters, key);
    if v.Str? then Ok(Canon(v.s)) else Err(TypeError)
  }

  /** `open(parameters[key])` for reading. */
  function OpenInput(parameters: Value, key: string, fs: FileSystem): (r: Result<Path>)
    ensures r.Ok? ==> r == RawPath(parameters, key) && r.value in fs
    ensures RawPath(parameters, key).Ok? && RawPath(parameters, key).value !in fs ==>
              r == Err(FileNotFound(RawPath(parameters, key).value))
  {
    var p :- RawPath(parameters, key);
    if p in fs then Ok(p) else Err(FileNotFound(p))
  }

  /** The three inputs are opened, then the three outputs (each truncated as
      it is opened), then all three inputs are read; there is no skip guard. */
  function OrderByRank(parameters: Value, fs: FileSystem): Outcome {
    var in1 := OpenInput(parameters, "input_src", fs);
    var in2 := OpenInput(parameters, "input_tgt", fs);
    var in3 := OpenInput(parameters, "input_ranks", fs);
    if in1.Err? then Fail(fs, in1.error)
    else if in2.Err? then Fail(fs, in2.error)
    else if in3.Err? then Fail(fs, in3.error)
    else
      var out1 := RawPath(parameters, "output_src");
      if out1.Err? then Fail(fs, out1.error)
      else
        var fs1 := fs[out1.value := []];
        var out2 := RawPath(parameters, "output_tgt");
        if out2.Err? then Fail(fs1, out2.error)
        else
          var fs2 := fs1[out2.value := []];
          var out3 := RawPath(parameters, "output_ranks");
          if out3.Err? then Fail(fs2, out3.error)
          else
            var fs3 := fs2[out3.value := []];
            var cols := RankedColumns(fs3[in1.value], fs3[in2.value], fs3[in3.value]);
            Outcome(fs3[out1.value := cols.0][out2.value := cols.1][out3.value := cols.2], Done)
  }
}
