/** What `execute_steps` and `execute_step` promise about a whole run: the
    `last` bound keeps exactly a prefix of the steps, a run splits at any step,
    an unknown step type stops the run only once the steps before it have
    written their files, and running up to step k and then step k + 1 alone is
    the same as running up to step k + 1. */
module ExecutorFacts {
  import opened PyValues
  import opened Files
  import opened Steps
  import opened Executor

  /** `last` clamped between the current step and the number of steps. */
  function Bound(last: int, num: nat, n: nat): (m: nat)
    requires num <= n
    ensures num <= m <= n
    ensures num <= last <= n ==> m == last
  {
    if last < num then num else if last > n then n else last
  }

  /** With `last = k`, the run is the unbounded run of the first k steps. */
  lemma {:induction false} RunFromLast(env: Env, of: OpusFilter, steps: seq<Value>, num: nat,
                                       overwrite: bool, k: int, fs: FileSystem)
    requires num <= |steps|
    ensures RunFrom(env, of, steps, num, overwrite, Some(k), fs) ==
            RunFrom(env, of, steps[..Bound(k, num, |steps|)], num, overwrite, None, fs)
    decreases |steps| - num
  {
    var m := Bound(k, num, |steps|);
    if num < |steps| && num + 1 <= k {
      RunFromUnfold(env, of, steps, num, overwrite, Some(k), fs);
      RunFromUnfold(env, of, steps[..m], num, overwrite, None, fs);
      assert steps[..m][num] == steps[num];
      var o := RunStep(env, of, steps[num], overwrite, fs);
      if !o.status.Failed? {
        RunFromLast(env, of, steps, num + 1, overwrite, k, o.fs);
        assert Bound(k, num + 1, |steps|) == m;
      }
    }
  }

  /** A run without a bound is the run up to step i followed, unless that
      failed, by the run of the steps from i on over the files it left. */
  lemma {:induction false} RunFromSplit(env: Env, of: OpusFilter, steps: seq<Value>, num: nat, i: nat,
                                        overwrite: bool, fs: FileSystem)
    requires num <= i <= |steps|
    ensures RunFrom(env, of, steps, num, overwrite, None, fs) ==
            var o := RunFrom(env, of, steps[..i], num, overwrite, None, fs);
            if o.status.Failed? then o else RunFrom(env, of, steps, i, overwrite, None, o.fs)
    decreases i - num
  {
    if num < i {
      RunFromUnfold(env, of, steps, num, overwrite, None, fs);
      RunFromUnfold(env, of, steps[..i], num, overwrite, None, fs);
      assert steps[..i][num] == steps[num];
      var o := RunStep(env, of, steps[num], overwrite, fs);
      if !o.status.Failed? {
        RunFromSplit(env, of, steps, num + 1, i, overwrite, o.fs);
      }
    }
  }

  /** `execute_steps(last=k)` runs the first k steps and nothing else; a
      bound of 0 or less runs no step, one past the end runs them all. */
  lemma ExecuteStepsLast(env: Env, of: OpusFilter, overwrite: bool, k: int, fs: FileSystem, items: seq<Value>)
    requires Subscript(of.configuration, "steps") == Ok(List(items))
    ensures ExecuteSteps(env, of, overwrite, Some(k), fs) ==
            RunFrom(env, of, items[..Bound(k, 0, |items|)], 0, overwrite, None, fs)
    ensures k <= 0 ==> ExecuteSteps(env, of, overwrite, Some(k), fs) == Outcome(fs, Done)
    ensures k >= |items| ==> ExecuteSteps(env, of, overwrite, Some(k), fs) == ExecuteSteps(env, of, overwrite, None, fs)
  {
    RunFromLast(env, of, items, 0, overwrite, k, fs);
    assert items[..|items|] == items;
  }

  /** A step whose type is not a step name raises `KeyError` without touching a file. */
  lemma UnknownStepType(env: Env, of: OpusFilter, step: Value, t: string, overwrite: bool, fs: FileSystem)
    requires Subscript(step, "type") == Ok(Str(t)) && t !in StepTypes
    ensures RunStep(env, of, step, overwrite, fs) == Fail(fs, KeyError(Str(t)))
  {
  }

  /** `classify` and `order_by_rank` have no skip guard: they run the same
      with or without `overwrite`, whatever outputs already exist. */
  lemma UnguardedSteps(env: Env, of: OpusFilter, step: Value, t: string, fs: FileSystem)
    requires Subscript(step, "type") == Ok(Str(t)) && (t == "classify" || t == "order_by_rank")
    ensures RunStep(env, of, step, true, fs) == RunStep(env, of, step, false, fs)
  {
  }

  /** The step types are looked up one step at a time, so the steps before an
      unknown type have already run and their files stay written. */
  lemma UnknownTypeAfterEarlierSteps(env: Env, of: OpusFilter, steps: seq<Value>, i: nat, t: string,
                                     overwrite: bool, fs: FileSystem)
    requires i < |steps|
    requires Subscript(steps[i], "type") == Ok(Str(t)) && t !in StepTypes
    ensures var before := RunFrom(env, of, steps[..i], 0, overwrite, None, fs);
            RunFrom(env, of, steps, 0, overwrite, None, fs) ==
            if before.status.Failed? then before else Fail(before.fs, KeyError(Str(t)))
  {
    RunFromSplit(env, of, steps, 0, i, overwrite, fs);
    var before := RunFrom(env, of, steps[..i], 0, overwrite, None, fs);
    if !before.status.Failed? {
      RunFromUnfold(env, of, steps, i, overwrite, None, before.fs);
      UnknownStepType(env, of, steps[i], t, overwrite, before.fs);
    }
  }

  /** `execute_steps(last=k)` followed by `execute_step(k + 1)` leaves the
      files as `execute_steps(last=k + 1)` does, and fails where it fails. */
  lemma ResumeWithStep(env: Env, of: OpusFilter, overwrite: bool, k: nat, fs: FileSystem, items: seq<Value>)
    requires Subscript(of.configuration, "steps") == Ok(List(items))
    requires k < |items|
    ensures var o := ExecuteSteps(env, of, overwrite, Some(k), fs);
            var next := ExecuteStep(env, of, k + 1, overwrite, o.fs);
            !o.status.Failed? ==>
              ExecuteSteps(env, of, overwrite, Some(k + 1), fs) ==
              if next.status.Failed? then next else Outcome(next.fs, Done)
  {
    ExecuteStepsLast(env, of, overwrite, k, fs, items);
    ExecuteStepsLast(env, of, overwrite, k + 1, fs, items);
    var o := RunFrom(env, of, items[..k], 0, overwrite, None, fs);
    RunFromExtend(env, of, items, k, overwrite, fs);
    if !o.status.Failed? {
      ExecuteStepAt(env, of, items, k, overwrite, o.fs);
    }
  }

  /** `execute_step(k + 1)` runs the (k + 1)-th step, counting from 1. */
  lemma ExecuteStepAt(env: Env, of: OpusFilter, items: seq<Value>, k: nat, overwrite: bool, fs: FileSystem)
    requires Subscript(of.configuration, "steps") == Ok(List(items))
    requires k < |items|
    ensures ExecuteStep(env, of, k + 1, overwrite, fs) == RunStep(env, of, items[k], overwrite, fs)
  {
    assert StepAt(List(items), k + 1) == Ok(items[k]);
  }

  /** Running one more step extends the run of the first k steps by that step. */
  lemma RunFromExtend(env: Env, of: OpusFilter, steps: seq<Value>, k: nat, overwrite: bool, fs: FileSystem)
    requires k < |steps|
    ensures var o := RunFrom(env, of, steps[..k], 0, overwrite, None, fs);
            var next := RunStep(env, of, steps[k], overwrite, o.fs);
            !o.status.Failed? ==>
              RunFrom(env, of, steps[..k + 1], 0, overwrite, None, fs) ==
              if next.status.Failed? then next else Outcome(next.fs, Done)
  {
    RunFromSplit(env, of, steps[..k + 1], 0, k, overwrite, fs);
    assert steps[..k + 1][..k] == steps[..k];
    var o := RunFrom(env, of, steps[..k], 0, overwrite, None, fs);
    if !o.status.Failed? {
      RunFromUnfold(env, of, steps[..k + 1], k, overwrite, None, o.fs);
      assert steps[..k + 1][k] == steps[k];
    }
  }

  /** An empty output directory falls back to the current one; a named one is kept. */
  lemma InitExamples()
    ensures Init(Dict([("common", Dict([("output_directory", Str(""))]))])).value.outputDir == "."
    ensures Init(Dict([("common", Dict([("output_directory", Str("work"))]))])).value.outputDir == "work"
    ensures Init(Dict([("common", Dict([("output_directory", Int(3))]))])) == Err(TypeError)
  {
  }
}
