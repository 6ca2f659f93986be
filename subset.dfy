/** `OpusFilter._yield_subset` and `OpusFilter._get_total_lines`: one forward
    pass over a file that emits the lines whose positions were sampled. The
    pending positions are kept sorted in descending order and the smallest is
    popped from the end whenever the previous one has been emitted. */
module Subset {
  import opened PyValues
  import opened Files

  predicate SortedDesc(s: seq<int>) {
    forall i, j :: 0 <= i < j < |s| ==> s[i] >= s[j]
  }

  predicate StrictlyIncreasing(s: seq<int>) {
    forall i, j :: 0 <= i < j < |s| ==> s[i] < s[j]
  }

  predicate Distinct(s: seq<int>) {
    forall i, j :: 0 <= i < j < |s| ==> s[i] != s[j]
  }

  /** What `random.sample(range(total), size)` promises: `size` distinct
      positions in `[0, total)`. */
  predicate IsSample(s: seq<int>, total: int, size: int) {
    |s| == size && Distinct(s) && forall i :: 0 <= i < |s| ==> 0 <= s[i] < total
  }

  function InsertDesc(x: int, s: seq<int>): (r: seq<int>)
    requires SortedDesc(s)
    ensures SortedDesc(r)
    ensures multiset(r) == multiset(s) + multiset{x}
    ensures r[0] == x || (s != [] && r[0] == s[0])
  {
    if s == [] || s[0] <= x then [x] + s
    else
      var rest := InsertDesc(x, s[1..]);
      assert rest[0] <= s[0];
      assert s == [s[0]] + s[1..];
      [s[0]] + rest
  }

  /** `sorted(indices, reverse=True)`. */
  function SortDescending(xs: seq<int>): (r: seq<int>)
    ensures SortedDesc(r)
    ensures multiset(r) == multiset(xs)
  {
    if xs == [] then []
    else
      assert xs == [xs[0]] + xs[1..];
      InsertDesc(xs[0], SortDescending(xs[1..]))
  }

  /** The order in which repeated `stack.pop()` removes the entries of `stack`: last first. */
  function Pops(stack: seq<int>): (r: seq<int>)
    ensures |r| == |stack|
    decreases |stack|
  {
    if stack == [] then [] else [stack[|stack| - 1]] + Pops(stack[..|stack| - 1])
  }

  /** The order in which the pass pops the pending positions off the end of the sorted list. */
  function PopOrder(indices: seq<int>): seq<int> {
    Pops(SortDescending(indices))
  }

  /** How many of the positions `asc[j..]` a forward pass still meets when its
      next position must be at least `lo`: it stops at the first position that
      is behind it (already passed) or beyond the end (`n` items). */
  function MatchCount(asc: seq<int>, n: int, j: nat, lo: int): (r: nat)
    requires j <= |asc|
    ensures j + r <= |asc|
    ensures forall i :: j <= i < j + r ==> lo <= asc[i] < n
    decreases |asc| - j
  {
    if j < |asc| && lo <= asc[j] < n then 1 + MatchCount(asc, n, j + 1, asc[j] + 1) else 0
  }

  /** The items `_yield_subset(items, indices)` yields. */
  function Extracted<T>(items: seq<T>, indices: seq<int>): seq<T> {
    var asc := PopOrder(indices);
    var k := MatchCount(asc, |items|, 0, 0);
    seq(k, j requires 0 <= j < k => items[asc[j]])
  }

  /** How many items the pass pulls from its input before it returns. */
  function Consumed<T>(items: seq<T>, indices: seq<int>): nat {
    var asc := PopOrder(indices);
    var k := MatchCount(asc, |items|, 0, 0);
    if indices == [] then 0
    else if k == |asc| then asc[k - 1] + 1
    else |items|
  }

  method YieldSubset<T>(items: seq<T>, indices: seq<int>) returns (out: seq<T>, consumed: nat)
    ensures out == Extracted(items, indices)
    ensures consumed == Consumed(items, indices)
  {
    out, consumed := [], 0;
    if |indices| == 0 {
      return;
    }
    var remaining := SortDescending(indices);
    ghost var asc := PopOrder(indices);
    ghost var lo := 0;
    assert |remaining| == |indices| by {
      assert |multiset(remaining)| == |multiset(indices)|;
    }
    var cur := remaining[|remaining| - 1];
    remaining := remaining[..|remaining| - 1];
    var idx := 0;
    while idx < |items|
      invariant 0 <= idx <= |items|
      invariant consumed == idx
      invariant Pending(asc, |out|, cur, remaining)
      invariant Emitted(out, items, asc)
      invariant lo <= idx && (lo <= cur ==> idx <= cur)
      invariant MatchCount(asc, |items|, 0, 0) == |out| + MatchCount(asc, |items|, |out|, lo)
    {
      consumed := idx + 1;
      if idx == cur {
        MatchStep(asc, |items|, |out|, lo);
        EmitStep(out, items, asc);
        out := out + [items[idx]];
        lo := cur + 1;
        if |remaining| > 0 {
          PopStep(asc, |out| - 1, cur, remaining);
          cur := remaining[|remaining| - 1];
          remaining := remaining[..|remaining| - 1];
        } else {
          ExtractedFrom(items, indices, out);
          ConsumedAll(items, indices, |out|);
          return;
        }
      }
      idx := idx + 1;
    }
    ExtractedFrom(items, indices, out);
    ConsumedShort(items, indices, |out|);
  }

  /** `cur` is the popped position number `j` and `remaining` the stack still to pop. */
  ghost predicate Pending(asc: seq<int>, j: nat, cur: int, remaining: seq<int>) {
    j + 1 + |remaining| == |asc| && asc[j] == cur && asc[j + 1..] == Pops(remaining)
  }

  /** Popping the next pending position keeps `Pending` one step further on. */
  lemma PopStep(asc: seq<int>, j: nat, cur: int, remaining: seq<int>)
    requires Pending(asc, j, cur, remaining) && remaining != []
    ensures Pending(asc, j + 1, remaining[|remaining| - 1], remaining[..|remaining| - 1])
  {
    assert asc[j + 1..][1..] == asc[j + 2..];
  }

  /** Meeting position `j` counts it and moves the lower bound past it. */
  lemma MatchStep(asc: seq<int>, n: int, j: nat, lo: int)
    requires j < |asc| && lo <= asc[j] < n
    ensures MatchCount(asc, n, j, lo) == 1 + MatchCount(asc, n, j + 1, asc[j] + 1)
  {
  }

  /** Emitting the item at the current position keeps `Emitted`. */
  lemma EmitStep<T>(out: seq<T>, items: seq<T>, asc: seq<int>)
    requires Emitted(out, items, asc) && |out| < |asc| && 0 <= asc[|out|] < |items|
    ensures Emitted(out + [items[asc[|out|]]], items, asc)
  {
  }

  /** The pass that met every position stops right after the last one ... */
  lemma ConsumedAll<T>(items: seq<T>, indices: seq<int>, k: nat)
    requires 0 < k == MatchCount(PopOrder(indices), |items|, 0, 0) == |PopOrder(indices)|
    ensures Consumed(items, indices) == PopOrder(indices)[k - 1] + 1
  {
  }

  /** ... and one that missed some reads the whole input. */
  lemma ConsumedShort<T>(items: seq<T>, indices: seq<int>, k: nat)
    requires indices != []
    requires k == MatchCount(PopOrder(indices), |items|, 0, 0) < |PopOrder(indices)|
    ensures Consumed(items, indices) == |items|
  {
  }

  /** `out` holds the items at the first `|out|` popped positions. */
  ghost predicate Emitted<T>(out: seq<T>, items: seq<T>, asc: seq<int>) {
    |out| <= |asc| && forall k :: 0 <= k < |out| ==> 0 <= asc[k] < |items| && out[k] == items[asc[k]]
  }

  lemma ExtractedFrom<T>(items: seq<T>, indices: seq<int>, out: seq<T>)
    requires |out| == MatchCount(PopOrder(indices), |items|, 0, 0)
    requires Emitted(out, items, PopOrder(indices))
    ensures out == Extracted(items, indices)
  {
  }

  /** `_get_total_lines`: the number of lines of an existing file. */
  method TotalLines(fs: FileSystem, path: Path) returns (r: Result<nat>)
    ensures path in fs ==> r == Ok(|fs[path]|)
    ensures path !in fs ==> r == Err(FileNotFound(path))
  {
    var lines :- ReadFile(fs, path);
    var total := -1;
    var idx := 0;
    while idx < |lines|
      invariant 0 <= idx <= |lines|
      invariant total == idx - 1
    {
      total := idx;
      idx := idx + 1;
    }
    return Ok(total + 1);
  }

  // ---------------------------------------------------------------------
  // What the pass yields for a sample

  lemma {:induction false} DistinctCounts(s: seq<int>)
    requires Distinct(s)
    ensures forall x :: multiset(s)[x] <= 1
  {
    if s != [] {
      var init := s[..|s| - 1];
      DistinctCounts(init);
      assert s == init + [s[|s| - 1]];
      assert s[|s| - 1] !in init;
    }
  }

  lemma StrictlyDecreasing(s: seq<int>)
    requires SortedDesc(s)
    requires forall x :: multiset(s)[x] <= 1
    ensures forall i, j :: 0 <= i < j < |s| ==> s[i] > s[j]
  {
    forall i, j | 0 <= i < j < |s| ensures s[i] > s[j] {
      assert s == s[..i] + [s[i]] + s[i + 1..j] + [s[j]] + s[j + 1..];
      assert s[i] == s[j] ==> multiset(s)[s[i]] >= 2;
    }
  }

  lemma {:induction false} PopsMultiset(s: seq<int>)
    ensures multiset(Pops(s)) == multiset(s)
    decreases |s|
  {
    if s != [] {
      var init := s[..|s| - 1];
      PopsMultiset(init);
      assert s == init + [s[|s| - 1]];
    }
  }

  lemma {:induction false} PopsAt(s: seq<int>, i: nat)
    requires i < |s|
    ensures Pops(s)[i] == s[|s| - 1 - i]
    decreases |s|
  {
    if i > 0 {
      PopsAt(s[..|s| - 1], i - 1);
    }
  }

  /** The pending positions are popped in strictly ascending order and are
      exactly the sampled ones. */
  lemma PopOrderOfSample(sample: seq<int>)
    requires Distinct(sample)
    ensures |PopOrder(sample)| == |sample|
    ensures multiset(PopOrder(sample)) == multiset(sample)
    ensures StrictlyIncreasing(PopOrder(sample))
  {
    var desc := SortDescending(sample);
    DistinctCounts(sample);
    StrictlyDecreasing(desc);
    PopsMultiset(desc);
    forall i, j | 0 <= i < j < |desc| ensures Pops(desc)[i] < Pops(desc)[j] {
      PopsAt(desc, i);
      PopsAt(desc, j);
    }
    assert |desc| == |multiset(desc)| == |multiset(sample)| == |sample|;
  }

  /** Once the pass has met the positions before `j`, it meets every later
      position below `n` when the positions increase strictly. */
  lemma {:induction false} MatchCountReachesEnd(asc: seq<int>, n: int, j: nat, lo: int)
    requires j <= |asc|
    requires StrictlyIncreasing(asc)
    requires j < |asc| ==> lo <= asc[j]
    ensures j + MatchCount(asc, n, j, lo) < |asc| ==> asc[j + MatchCount(asc, n, j, lo)] >= n
    decreases |asc| - j
  {
    if j < |asc| && lo <= asc[j] < n {
      MatchCountReachesEnd(asc, n, j + 1, asc[j] + 1);
    }
  }

  /** Over strictly increasing non-negative positions the pass meets every
      position that exists and stops at the first one past the end. */
  lemma WalkIncreasing<T>(items: seq<T>, asc: seq<int>)
    requires StrictlyIncreasing(asc)
    requires asc != [] ==> 0 <= asc[0]
    ensures var k := MatchCount(asc, |items|, 0, 0);
            forall j :: k <= j < |asc| ==> asc[j] >= |items|
  {
    var k := MatchCount(asc, |items|, 0, 0);
    MatchCountReachesEnd(asc, |items|, 0, 0);
  }

  /** Over strictly increasing non-negative positions that all exist the pass meets them all. */
  lemma WalkAll<T>(items: seq<T>, asc: seq<int>)
    requires StrictlyIncreasing(asc)
    requires asc != [] ==> 0 <= asc[0]
    requires forall j :: 0 <= j < |asc| ==> asc[j] < |items|
    ensures MatchCount(asc, |items|, 0, 0) == |asc|
  {
    MatchCountReachesEnd(asc, |items|, 0, 0);
  }

  /** `_yield_subset` over a sample of non-negative distinct positions yields
      the items at the sampled positions that exist, in ascending position
      order; the sampled positions it does not reach are past the end. */
  lemma ExtractSample<T>(items: seq<T>, sample: seq<int>)
    requires Distinct(sample)
    requires forall i :: 0 <= i < |sample| ==> 0 <= sample[i]
    ensures var asc := PopOrder(sample);
            var out := Extracted(items, sample);
            |out| <= |sample| &&
            (forall j :: 0 <= j < |out| ==> out[j] == items[asc[j]]) &&
            (forall j :: |out| <= j < |asc| ==> asc[j] >= |items|)
  {
    var asc := PopOrder(sample);
    PopOrderOfSample(sample);
    if |asc| > 0 {
      assert asc[0] in multiset(sample);
    }
    WalkIncreasing(items, asc);
  }

  /** With a sample of `size` positions of a file of at least `total` lines,
      the pass yields exactly `size` lines, the items at the sampled positions
      in ascending order, and stops reading right after the largest position. */
  lemma ExtractFullSample<T>(items: seq<T>, sample: seq<int>, total: int, size: int)
    requires IsSample(sample, total, size)
    requires total <= |items|
    ensures var asc := PopOrder(sample);
            var out := Extracted(items, sample);
            |out| == size &&
            multiset(asc) == multiset(sample) && StrictlyIncreasing(asc) &&
            |asc| == size && (forall j :: 0 <= j < size ==> 0 <= asc[j] < total) &&
            (forall j :: 0 <= j < size ==> out[j] == items[asc[j]]) &&
            (size == 0 ==> Consumed(items, sample) == 0) &&
            (size > 0 ==> Consumed(items, sample) == asc[size - 1] + 1 &&
                          forall i :: 0 <= i < size ==> sample[i] <= asc[size - 1])
  {
    var asc := PopOrder(sample);
    PopOrderOfSample(sample);
    InRange(asc, sample, total);
    WalkAll(items, asc);
    if size > 0 {
      ConsumedAll(items, sample, size);
      LastIsMax(asc, sample);
    }
  }

  /** A permutation of positions in `[0, total)` stays in range. */
  lemma InRange(asc: seq<int>, sample: seq<int>, total: int)
    requires multiset(asc) == multiset(sample)
    requires forall i :: 0 <= i < |sample| ==> 0 <= sample[i] < total
    ensures forall j :: 0 <= j < |asc| ==> 0 <= asc[j] < total
  {
    forall j | 0 <= j < |asc| ensures 0 <= asc[j] < total {
      assert asc[j] in multiset(sample);
    }
  }

  /** The last of strictly increasing positions is the largest sampled one. */
  lemma LastIsMax(asc: seq<int>, sample: seq<int>)
    requires asc != [] && multiset(asc) == multiset(sample) && StrictlyIncreasing(asc)
    ensures forall i :: 0 <= i < |sample| ==> sample[i] <= asc[|asc| - 1]
  {
    forall i | 0 <= i < |sample| ensures sample[i] <= asc[|asc| - 1] {
      assert sample[i] in multiset(asc);
    }
  }

  /** A position list with a negative entry pops it first and never meets it,
      so nothing is yielded (the source only ever passes samples). */
  lemma NegativePositionStopsPass()
    ensures Extracted(["a", "b", "c"], [1, -1]) == []
  {
    var desc := SortDescending([1, -1]);
    assert multiset(desc) == multiset{1, -1};
    assert desc == [1, -1] by {
      assert |desc| == 2;
      assert desc[0] in multiset(desc) && desc[1] in multiset(desc);
    }
  }
}
