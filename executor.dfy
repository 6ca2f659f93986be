/** `OpusFilter` itself: the output directory chosen at construction, the
    step dispatcher, `execute_steps` (every step in order, optionally stopping
    after step `last`) and `execute_step` (one step by its number). */
module Executor {
  import opened PyValues
  import opened Files
  import opened Steps

  datatype OpusFilter = OpusFilter(configuration: Value, outputDir: Path)

  /** `configuration.get('common', {}).get('output_directory')`, with '.' for
      an unset or empty directory. */
  function Init(configuration: Value): (r: Result<OpusFilter>)
    ensures !configuration.Dict? ==> r == Err(AttributeError)
    ensures r.Ok? ==> r.value.configuration == configuration && r.value.outputDir != []
    ensures configuration.Dict? && !HasKey(configuration.entries, "common") ==> r == Ok(OpusFilter(configuration, "."))
  {
    var common :- Get(configuration, "common", Dict([]));
    var dir :- Get(common, "output_directory", Null);
    if !Truthy(dir) then Ok(OpusFilter(configuration, "."))
    else if dir.Str? then Ok(OpusFilter(configuration, dir.s))
    else Err(TypeError)
  }

  /** The keys of `step_functions`. */
  const StepTypes: seq<string> :=
    ["opus_read", "filter", "concatenate", "subset", "train_ngram",
     "train_alignment", "score", "classify", "order_by_rank"]

  /** `self.step_functions[t]`: lists and dictionaries are unhashable, any
      other key that is not a step name is missing. */
  function StepFunction(t: Value): (r: Result<string>)
    ensures r.Ok? <==> t.Str? && t.s in StepTypes
    ensures r.Ok? ==> r.value == t.s
    ensures (t.List? || t.Dict?) ==> r == Err(TypeError)
    ensures !(t.List? || t.Dict?) && r.Err? ==> r == Err(KeyError(t))
  {
    if t.List? || t.Dict? then Err(TypeError)
    else if t.Str? && t.s in StepTypes then Ok(t.s)
    else Err(KeyError(t))
  }

  /** The handler a step name stands for. */
  function Handler(env: Env, name: string, dir: Path, parameters: Value, overwrite: bool, fs: FileSystem): Outcome
    requires name in StepTypes
  {
    if name == "opus_read" then ReadFromOpus(env, dir, parameters, overwrite, fs)
    else if name == "filter" then FilterData(env, dir, parameters, overwrite, fs)
    else if name == "concatenate" then Concatenate(dir, parameters, overwrite, fs)
    else if name == "subset" then GetSubset(env, dir, parameters, overwrite, fs)
    else if name == "train_ngram" then TrainNgram(env, dir, parameters, overwrite, fs)
    else if name == "train_alignment" then TrainAlignment(env, dir, parameters, overwrite, fs)
    else if name == "score" then ScoreData(env, dir, parameters, overwrite, fs)
    else if name == "classify" then Classify(env, parameters, fs)
    else OrderByRank(parameters, fs)
  }

  /** `self.step_functions[step['type']](step['parameters'], overwrite=overwrite)`:
      the handler is looked up before the parameters are. */
  function RunStep(env: Env, of: OpusFilter, step: Value, overwrite: bool, fs: FileSystem): Outcome {
    var t := Subscript(step, "type");
    if t.Err? then Fail(fs, t.error)
    else
      var name := StepFunction(t.value);
      if name.Err? then Fail(fs, name.error)
      else
        var parameters := Subscript(step, "parameters");
        if parameters.Err? then Fail(fs, parameters.error)
        else Handler(env, name.value, of.outputDir, parameters.value, overwrite, fs)
  }

  method Step(env: Env, of: OpusFilter, step: Value, overwrite: bool, fs: FileSystem) returns (o: Outcome)
    ensures o == RunStep(env, of, step, overwrite, fs)
  {
    var t := Subscript(step, "type");
    if t.Err? {
      return Fail(fs, t.error);
    }
    var name := StepFunction(t.value);
    if name.Err? {
      return Fail(fs, name.error);
    }
    var parameters := Subscript(step, "parameters");
    if parameters.Err? {
      return Fail(fs, parameters.error);
    }
    var dir, params := of.outputDir, parameters.value;
    if name.value == "opus_read" {
      o := ReadFromOpus(env, dir, params, overwrite, fs);
    } else if name.value == "filter" {
      o := RunFilterData(env, dir, params, overwrite, fs);
    } else if name.value == "concatenate" {
      o := RunConcatenate(dir, params, overwrite, fs);
    } else if name.value == "subset" {
      o := RunGetSubset(env, dir, params, overwrite, fs);
    } else if name.value == "train_ngram" {
      o := TrainNgram(env, dir, params, overwrite, fs);
    } else if name.value == "train_alignment" {
      o := TrainAlignment(env, dir, params, overwrite, fs);
    } else if name.value == "score" {
      o := RunScoreData(env, dir, params, overwrite, fs);
    } else if name.value == "classify" {
      o := Classify(env, params, fs);
    } else {
      o := OrderByRank(params, fs);
    }
  }

  /** The steps from number `num` (0-based) on, each on the files the previous
      one left; the first exception ends the run, and with `last` set no step
      numbered (1-based) above it runs. */
  function RunFrom(env: Env, of: OpusFilter, steps: seq<Value>, num: nat, overwrite: bool,
                   last: Option<int>, fs: FileSystem): (r: Outcome)
    requires num <= |steps|
    ensures r.status != Skipped
    decreases |steps| - num
  {
    if num == |steps| then Outcome(fs, Done)
    else if last.Some? && num + 1 > last.value then Outcome(fs, Done)
    else
      var o := RunStep(env, of, steps[num], overwrite, fs);
      if o.status.Failed? then o
      else RunFrom(env, of, steps, num + 1, overwrite, last, o.fs)
  }

  /** One step of `RunFrom`, stated so that a caller need not unfold the steps. */
  lemma RunFromUnfold(env: Env, of: OpusFilter, steps: seq<Value>, num: nat, overwrite: bool,
                      last: Option<int>, fs: FileSystem)
    requires num < |steps| && !(last.Some? && num + 1 > last.value)
    ensures var o := RunStep(env, of, steps[num], overwrite, fs);
            RunFrom(env, of, steps, num, overwrite, last, fs) ==
            if o.status.Failed? then o else RunFrom(env, of, steps, num + 1, overwrite, last, o.fs)
  {
  }

  /** `execute_steps(overwrite, last)`. */
  function ExecuteSteps(env: Env, of: OpusFilter, overwrite: bool, last: Option<int>, fs: FileSystem): Outcome {
    var steps := Subscript(of.configuration, "steps");
    if steps.Err? then Fail(fs, steps.error)
    else
      var items := Iterate(steps.value);
      if items.Err? then Fail(fs, items.error)
      else RunFrom(env, of, items.value, 0, overwrite, last, fs)
  }

  /** The `for num, step in enumerate(...)` loop of `execute_steps`. */
  method RunSteps(env: Env, of: OpusFilter, steps: seq<Value>, overwrite: bool, last: Option<int>, fs: FileSystem)
    returns (o: Outcome)
    ensures o == RunFrom(env, of, steps, 0, overwrite, last, fs)
  {
    var cur := fs;
    var num := 0;
    while num < |steps|
      invariant 0 <= num <= |steps|
      invariant RunFrom(env, of, steps, 0, overwrite, last, fs) == RunFrom(env, of, steps, num, overwrite, last, cur)
    {
      if last.Some? && num + 1 > last.value {
        break;
      }
      var r := Step(env, of, steps[num], overwrite, cur);
      RunFromUnfold(env, of, steps, num, overwrite, last, cur);
      if r.status.Failed? {
        return r;
      }
      cur := r.fs;
      num := num + 1;
    }
    return Outcome(cur, Done);
  }

  method RunExecuteSteps(env: Env, of: OpusFilter, overwrite: bool, last: Option<int>, fs: FileSystem)
    returns (o: Outcome)
    ensures o == ExecuteSteps(env, of, overwrite, last, fs)
  {
    var steps := Subscript(of.configuration, "steps");
    if steps.Err? {
      return Fail(fs, steps.error);
    }
    var items := Iterate(steps.value);
    if items.Err? {
      return Fail(fs, items.error);
    }
    o := RunSteps(env, of, items.value, overwrite, last, fs);
  }

  /** `seq[i]` with Python's negative indices counting from the end. */
  function PyIndex<T>(items: seq<T>, i: int): (r: Result<T>)
    ensures r.Ok? <==> -|items| <= i < |items|
    ensures r.Ok? ==> r.value == items[if i < 0 then i + |items| else i]
    ensures r.Err? ==> r.error == IndexError
  {
    if 0 <= i < |items| then Ok(items[i])
    else if -|items| <= i < 0 then Ok(items[i + |items|])
    else Err(IndexError)
  }

  /** `steps[num if num < 0 else num - 1]`: steps count from 1, or from -1 at the end. */
  function StepAt(steps: Value, num: int): (r: Result<Value>)
    ensures steps.List? ==>
              (r.Ok? <==> steps.items != [] && -|steps.items| <= num <= |steps.items|)
    ensures steps.List? && r.Ok? ==>
              r.value == (if num > 0 then steps.items[num - 1]
                          else if num < 0 then steps.items[|steps.items| + num]
                          else steps.items[|steps.items| - 1])
    ensures steps.List? && r.Err? ==> r.error == IndexError
    ensures steps.Dict? ==> r == Err(KeyError(Int(if num < 0 then num else num - 1)))
    ensures !(steps.List? || steps.Dict? || steps.Str?) ==> r == Err(TypeError)
  {
    var i := if num < 0 then num else num - 1;
    match steps
    case List(items) => PyIndex(items, i)
    case Dict(_) => Err(KeyError(Int(i)))
    case Str(s) =>
      var c :- PyIndex(s, i);
      Ok(Str([c]))
    case _ => Err(TypeError)
  }

  /** `execute_step(num, overwrite)`. */
  function ExecuteStep(env: Env, of: OpusFilter, num: int, overwrite: bool, fs: FileSystem): Outcome {
    var steps := Subscript(of.configuration, "steps");
    if steps.Err? then Fail(fs, steps.error)
    else
      var step := StepAt(steps.value, num);
      if step.Err? then Fail(fs, step.error)
      else RunStep(env, of, step.value, overwrite, fs)
  }

  method RunExecuteStep(env: Env, of: OpusFilter, num: int, overwrite: bool, fs: FileSystem) returns (o: Outcome)
    ensures o == ExecuteStep(env, of, num, overwrite, fs)
  {
    var steps := Subscript(of.configuration, "steps");
    if steps.Err? {
      return Fail(fs, steps.error);
    }
    var step := StepAt(steps.value, num);
    if step.Err? {
      return Fail(fs, step.error);
    }
    o := Step(env, of, step.value, overwrite, fs);
  }
}
