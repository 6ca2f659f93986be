/** The path rewrite `OpusFilter.score_data` applies to its copy of the
    filter configuration before scoring: file names inside the filter
    parameters are made relative to the output directory. The configuration
    is a value here, so the caller's copy is never changed. */
module ScoreConfig {
  import opened PyValues
  import opened Files

  /** An `interpolate` entry whose first element is a file name. */
  predicate IsPathEntry(entry: Value) {
    entry.List? && entry.items != [] && entry.items[0].Str?
  }

  /** `entry[0] = os.path.join(dir, entry[0])` for one `interpolate` entry. */
  function JoinFirst(dir: Path, entry: Value): (r: Result<Value>)
    ensures r.Ok? <==> IsPathEntry(entry)
    ensures r.Ok? ==> r.value == List([Str(Join(dir, entry.items[0].s))] + entry.items[1..])
    ensures entry.List? && entry.items == [] ==> r == Err(IndexError)
    ensures entry.Str? ==> r == Err(if entry.s == "" then IndexError else TypeError)
    ensures entry.Dict? ==> r == Err(KeyError(Int(0)))
  {
    match entry
    case List(xs) =>
      if xs == [] then Err(IndexError)
      else
        var p :- JoinValue(dir, xs[0]);
        assert xs[0 := Str(p)] == [Str(p)] + xs[1..];
        Ok(List(xs[0 := Str(p)]))
    // `s[0]` is a one-character string that cannot be assigned to
    case Str(s) => if s == "" then Err(IndexError) else Err(TypeError)
    // the only dictionary keys modelled are strings
    case Dict(_) => Err(KeyError(Int(0)))
    case _ => Err(TypeError)
  }

  /** All entries of an `interpolate` list rewritten, or the first entry's error. */
  function JoinFirsts(dir: Path, entries: seq<Value>): (r: Result<seq<Value>>)
    ensures r.Ok? <==> forall i :: 0 <= i < |entries| ==> IsPathEntry(entries[i])
    ensures r.Ok? ==> |r.value| == |entries| &&
                      forall i :: 0 <= i < |entries| ==> r.value[i] == JoinFirst(dir, entries[i]).value
  {
    if entries == [] then Ok([])
    else
      var head :- JoinFirst(dir, entries[0]);
      var tail :- JoinFirsts(dir, entries[1..]);
      assert forall i :: 1 <= i < |entries| ==> entries[i] == entries[1..][i - 1];
      Ok([head] + tail)
  }

  /** The loop stops at the first entry that cannot be rewritten, with its error. */
  lemma {:induction false} JoinFirstsFirstError(dir: Path, entries: seq<Value>, idx: nat)
    requires idx < |entries| && !IsPathEntry(entries[idx])
    requires forall j :: 0 <= j < idx ==> IsPathEntry(entries[j])
    ensures JoinFirsts(dir, entries) == Err(JoinFirst(dir, entries[idx]).error)
  {
    if idx > 0 {
      JoinFirstsFirstError(dir, entries[1..], idx - 1);
    }
  }

  /** The `for idx in range(len(interpolate))` loop, which rewrites the list in place. */
  method JoinInterpolate(dir: Path, entries: seq<Value>) returns (r: Result<seq<Value>>)
    ensures r == JoinFirsts(dir, entries)
  {
    var items := entries;
    var idx := 0;
    while idx < |items|
      invariant 0 <= idx <= |items| == |entries|
      invariant items[idx..] == entries[idx..]
      invariant forall j :: 0 <= j < idx ==> IsPathEntry(entries[j]) && items[j] == JoinFirst(dir, entries[j]).value
    {
      assert items[idx] == entries[idx..][0];
      var joined := JoinFirst(dir, items[idx]);
      if joined.Err? {
        JoinFirstsFirstError(dir, entries, idx);
        return Err(joined.error);
      }
      items := items[idx := joined.value];
      idx := idx + 1;
    }
    var all := JoinFirsts(dir, entries);
    assert all.Ok?;
    assert all.value == items;
    return Ok(items);
  }

  /** One `src_lm_params`/`tgt_lm_params` dictionary with its `filename` joined
      and, when `interpolate` is truthy, the first element of each of its entries. */
  function LmParams(dir: Path, params: Value): (r: Result<Value>)
    ensures !params.Dict? ==> r == Err(TypeError)
    ensures params.Dict? && !HasKey(params.entries, "filename") ==> r == Err(KeyError(Str("filename")))
    ensures r.Ok? ==> (params.Dict? && r.value.Dict? &&
                       var name := Lookup(params.entries, "filename");
                       name.Some? && name.value.Str? &&
                       Lookup(r.value.entries, "filename") == Some(Str(Join(dir, name.value.s))))
    ensures r.Ok? ==> forall k :: k != "filename" && k != "interpolate" ==>
                        Lookup(r.value.entries, k) == Lookup(params.entries, k)
    ensures r.Ok? ==> (var interp := Lookup(params.entries, "interpolate");
                       if interp.Some? && Truthy(interp.value)
                       then interp.value.List? && JoinFirsts(dir, interp.value.items).Ok? &&
                            Lookup(r.value.entries, "interpolate") == Some(List(JoinFirsts(dir, interp.value.items).value))
                       else Lookup(r.value.entries, "interpolate") == interp)
  {
    var name :- Subscript(params, "filename");
    var joined :- JoinValue(dir, name);
    var es := SetKey(params.entries, "filename", Str(joined));
    var interp := Lookup(es, "interpolate");
    if interp.None? || !Truthy(interp.value) then Ok(Dict(es))
    else
      match interp.value
      case List(xs) =>
        var ys :- JoinFirsts(dir, xs);
        Ok(Dict(SetKey(es, "interpolate", List(ys))))
      // `d[0]` on a dictionary of string keys
      case Dict(_) => Err(KeyError(Int(0)))
      // `len()` of a number, or assigning into a one-character string
      case _ => Err(TypeError)
  }

  /** The `WordAlignFilter` branch: `priors` is joined only when `'priors' in params`. */
  function Priors(dir: Path, params: Value): (r: Result<Value>)
    ensures params.Dict? && !HasKey(params.entries, "priors") ==> r == Ok(params)
    ensures r.Ok? && r != Ok(params) ==> (params.Dict? && r.value.Dict? &&
                                          var p := Lookup(params.entries, "priors");
                                          p.Some? && p.value.Str? &&
                                          Lookup(r.value.entries, "priors") == Some(Str(Join(dir, p.value.s))) &&
                                          forall k :: k != "priors" ==> Lookup(r.value.entries, k) == Lookup(params.entries, k))
  {
    var present :- Contains(params, "priors");
    if !present then Ok(params)
    else
      var p :- Subscript(params, "priors");
      var joined :- JoinValue(dir, p);
      Ok(Dict(SetKey(params.entries, "priors", Str(joined))))
  }

  /** The `CrossEntropyFilter` branch: both language-model parameter sets, source first. */
  function CrossEntropy(dir: Path, params: Value): (r: Result<Value>)
    ensures r.Ok? ==> (params.Dict? && r.value.Dict? &&
                       var src := Lookup(params.entries, "src_lm_params");
                       var tgt := Lookup(params.entries, "tgt_lm_params");
                       src.Some? && tgt.Some? && LmParams(dir, src.value).Ok? && LmParams(dir, tgt.value).Ok? &&
                       Lookup(r.value.entries, "src_lm_params") == Some(LmParams(dir, src.value).value) &&
                       Lookup(r.value.entries, "tgt_lm_params") == Some(LmParams(dir, tgt.value).value) &&
                       forall k :: k != "src_lm_params" && k != "tgt_lm_params" ==>
                         Lookup(r.value.entries, k) == Lookup(params.entries, k))
  {
    var src :- Subscript(params, "src_lm_params");
    var src' :- LmParams(dir, src);
    var es := SetKey(params.entries, "src_lm_params", src');
    var tgt :- Subscript(Dict(es), "tgt_lm_params");
    var tgt' :- LmParams(dir, tgt);
    var es' := SetKey(es, "tgt_lm_params", tgt');
    assert Lookup(es, "tgt_lm_params") == Some(tgt) == Lookup(params.entries, "tgt_lm_params");
    assert Lookup(es', "src_lm_params") == Some(src');
    Ok(Dict(es'))
  }

  /** One filter `{name: params}` as the loop body leaves it: its name is the
      first key, and only the two named filters are touched. */
  function RewriteFilter(dir: Path, f: Value): (r: Result<Value>)
    ensures !f.Dict? ==> r == Err(AttributeError)
    ensures f == Dict([]) ==> r == Err(StopIteration)
    ensures r.Ok? ==> (f.Dict? && f.entries != [] && r.value.Dict? &&
                       |r.value.entries| == |f.entries| && r.value.entries[0].0 == f.entries[0].0 &&
                       r.value.entries[1..] == f.entries[1..])
    ensures (f.Dict? && f.entries != [] &&
             f.entries[0].0 != "WordAlignFilter" && f.entries[0].0 != "CrossEntropyFilter") ==> r == Ok(f)
  {
    if !f.Dict? then Err(AttributeError)
    else if f.entries == [] then Err(StopIteration)
    else
      var name := f.entries[0].0;
      var params := f.entries[0].1;
      var params1 :- if name == "WordAlignFilter" then Priors(dir, params) else Ok(params);
      var params2 :- if name == "CrossEntropyFilter" then CrossEntropy(dir, params1) else Ok(params1);
      assert f.entries == [(name, params)] + f.entries[1..];
      Ok(Dict([(name, params2)] + f.entries[1..]))
  }

  /** Every filter of the list rewritten, or the first filter's error. */
  function RewriteAll(dir: Path, filters: seq<Value>): (r: Result<seq<Value>>)
    ensures r.Ok? <==> forall i :: 0 <= i < |filters| ==> RewriteFilter(dir, filters[i]).Ok?
    ensures r.Ok? ==> |r.value| == |filters| &&
                      forall i :: 0 <= i < |filters| ==> r.value[i] == RewriteFilter(dir, filters[i]).value
  {
    if filters == [] then Ok([])
    else
      var head :- RewriteFilter(dir, filters[0]);
      var tail :- RewriteAll(dir, filters[1..]);
      assert forall i :: 1 <= i < |filters| ==> filters[i] == filters[1..][i - 1];
      Ok([head] + tail)
  }

  lemma {:induction false} RewriteAllFirstError(dir: Path, filters: seq<Value>, idx: nat)
    requires idx < |filters| && RewriteFilter(dir, filters[idx]).Err?
    requires forall j :: 0 <= j < idx ==> RewriteFilter(dir, filters[j]).Ok?
    ensures RewriteAll(dir, filters) == Err(RewriteFilter(dir, filters[idx]).error)
  {
    if idx > 0 {
      RewriteAllFirstError(dir, filters[1..], idx - 1);
    }
  }

  /** The `for f in filter_params` loop, which changes each filter in place. */
  method RewriteFilterList(dir: Path, filters: seq<Value>) returns (r: Result<seq<Value>>)
    ensures r == RewriteAll(dir, filters)
  {
    var items := filters;
    var idx := 0;
    while idx < |items|
      invariant 0 <= idx <= |items| == |filters|
      invariant items[idx..] == filters[idx..]
      invariant forall j :: 0 <= j < idx ==> RewriteFilter(dir, filters[j]).Ok? &&
                                              items[j] == RewriteFilter(dir, filters[j]).value
    {
      assert items[idx] == filters[idx..][0];
      var f := RewriteFilter(dir, items[idx]);
      if f.Err? {
        RewriteAllFirstError(dir, filters, idx);
        return Err(f.error);
      }
      items := items[idx := f.value];
      idx := idx + 1;
    }
    var all := RewriteAll(dir, filters);
    assert all.Ok?;
    assert all.value == items;
    return Ok(items);
  }

  /** `copy.deepcopy(parameters['filters'])` after the loop; iterating a
      dictionary or a string visits keys or characters, which have no `items()`. */
  function RewriteFilters(dir: Path, filters: Value): (r: Result<Value>)
    ensures r.Ok? ==> (filters.List? <==> r.value.List?)
    ensures filters.List? ==> (r.Ok? <==> RewriteAll(dir, filters.items).Ok?)
    ensures filters.List? && r.Ok? ==> r.value.items == RewriteAll(dir, filters.items).value
    ensures !filters.List? && r.Ok? ==> r.value == filters
  {
    match filters
    case List(xs) =>
      var ys :- RewriteAll(dir, xs);
      Ok(List(ys))
    case Dict(es) => if es == [] then Ok(filters) else Err(AttributeError)
    case Str(s) => if s == "" then Ok(filters) else Err(AttributeError)
    case _ => Err(TypeError)
  }

  // ---------------------------------------------------------------------
  // What the rewrite promises

  /** A rewritten filter list has the same filters, in the same order, under
      the same names; filters other than the two named ones are untouched. */
  lemma RewriteKeepsFilters(dir: Path, filters: seq<Value>)
    requires RewriteFilters(dir, List(filters)).Ok?
    ensures var out := RewriteFilters(dir, List(filters)).value.items;
            |out| == |filters| &&
            forall i :: 0 <= i < |filters| ==>
              filters[i].Dict? && filters[i].entries != [] && out[i].Dict? &&
              out[i].entries[0].0 == filters[i].entries[0].0 &&
              out[i].entries[1..] == filters[i].entries[1..] &&
              ((filters[i].entries[0].0 != "WordAlignFilter" &&
                filters[i].entries[0].0 != "CrossEntropyFilter") ==> out[i] == filters[i])
  {
    var out := RewriteAll(dir, filters).value;
    forall i | 0 <= i < |filters|
      ensures filters[i].Dict? && filters[i].entries != [] && out[i] == RewriteFilter(dir, filters[i]).value
    {
      assert RewriteFilter(dir, filters[i]).Ok?;
    }
  }

  /** `WordAlignFilter` without a `priors` key is left as it is ... */
  lemma PriorsAbsent(dir: Path, params: seq<(string, Value)>, rest: seq<(string, Value)>)
    requires !HasKey(params, "priors")
    ensures var f := Dict([("WordAlignFilter", Dict(params))] + rest);
            RewriteFilter(dir, f) == Ok(f)
  {
    var f := Dict([("WordAlignFilter", Dict(params))] + rest);
    assert f.entries[1..] == rest;
  }

  /** ... and with a string `priors` it gets that file name joined and nothing else. */
  lemma PriorsJoined(dir: Path, params: seq<(string, Value)>, rest: seq<(string, Value)>, priors: string)
    requires Lookup(params, "priors") == Some(Str(priors))
    ensures var f := Dict([("WordAlignFilter", Dict(params))] + rest);
            var r := RewriteFilter(dir, f);
            r.Ok? && r.value.entries[0].1.Dict? &&
            Lookup(r.value.entries[0].1.entries, "priors") == Some(Str(Join(dir, priors))) &&
            (forall k :: k != "priors" ==> Lookup(r.value.entries[0].1.entries, k) == Lookup(params, k)) &&
            r.value.entries[1..] == rest
  {
    var f := Dict([("WordAlignFilter", Dict(params))] + rest);
    assert f.entries[1..] == rest;
    var p := Priors(dir, Dict(params));
    assert p == Ok(Dict(SetKey(params, "priors", Str(Join(dir, priors)))));
  }

  /** `CrossEntropyFilter` succeeds exactly when both parameter sets can be
      rewritten, and then holds both rewritten sets and its other keys unchanged. */
  lemma CrossEntropyJoined(dir: Path, params: seq<(string, Value)>, rest: seq<(string, Value)>, src: Value, tgt: Value)
    requires Lookup(params, "src_lm_params") == Some(src)
    requires Lookup(params, "tgt_lm_params") == Some(tgt)
    ensures var f := Dict([("CrossEntropyFilter", Dict(params))] + rest);
            var r := RewriteFilter(dir, f);
            (r.Ok? <==> LmParams(dir, src).Ok? && LmParams(dir, tgt).Ok?) &&
            (r.Ok? ==> r.value.entries[0].1.Dict? &&
                       Lookup(r.value.entries[0].1.entries, "src_lm_params") == Some(LmParams(dir, src).value) &&
                       Lookup(r.value.entries[0].1.entries, "tgt_lm_params") == Some(LmParams(dir, tgt).value) &&
                       r.value.entries[1..] == rest)
  {
    var f := Dict([("CrossEntropyFilter", Dict(params))] + rest);
    assert f.entries[1..] == rest;
    CrossEntropyOk(dir, params, src, tgt);
  }

  lemma CrossEntropyOk(dir: Path, params: seq<(string, Value)>, src: Value, tgt: Value)
    requires Lookup(params, "src_lm_params") == Some(src)
    requires Lookup(params, "tgt_lm_params") == Some(tgt)
    ensures CrossEntropy(dir, Dict(params)).Ok? <==> LmParams(dir, src).Ok? && LmParams(dir, tgt).Ok?
  {
    var src' := LmParams(dir, src);
    assert Subscript(Dict(params), "src_lm_params") == Ok(src);
    if src'.Ok? {
      var es := SetKey(params, "src_lm_params", src'.value);
      assert Lookup(es, "tgt_lm_params") == Some(tgt);
      assert Subscript(Dict(es), "tgt_lm_params") == Ok(tgt);
    }
  }

  /** An `interpolate` list with one entry: its file name is joined, its weight kept. */
  lemma InterpolateExample()
    ensures JoinFirsts("work", [List([Str("b.arpa"), Int(1)])]) == Ok([List([Str("work/b.arpa"), Int(1)])])
  {
    var entry := List([Str("b.arpa"), Int(1)]);
    var all := JoinFirsts("work", [entry]);
    assert Join("work", "b.arpa") == "work/b.arpa";
    assert entry.items[1..] == [Int(1)];
    assert all.Ok? && |all.value| == 1 && all.value[0] == JoinFirst("work", entry).value;
    assert [Str("work/b.arpa")] + [Int(1)] == [Str("work/b.arpa"), Int(1)];
    assert all.value[0] == List([Str("work/b.arpa"), Int(1)]);
    assert all.value == [all.value[0]];
  }
}
