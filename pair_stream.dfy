/** `OpusFilter.pair_generator` and `OpusFilter.get_pairs`: a source file and
    a target file read in lockstep into sentence pairs. */
module PairStream {
  import opened PyValues
  import opened Files

  type Pair = (Line, Line)

  /** `str.isspace` for one character (the characters Python treats as whitespace). */
  predicate IsSpace(c: char) {
    var n := c as int;
    (9 <= n <= 13) || (28 <= n <= 32) || n == 0x85 || n == 0xA0 || n == 0x1680 ||
    (0x2000 <= n <= 0x200A) || n == 0x2028 || n == 0x2029 || n == 0x202F ||
    n == 0x205F || n == 0x3000
  }

  /** `str.rstrip()`: the longest prefix of `s` that does not end in whitespace. */
  function RStrip(s: string): (r: string)
    ensures r <= s
    ensures r == [] || !IsSpace(r[|r| - 1])
    ensures forall i :: |r| <= i < |s| ==> IsSpace(s[i])
    decreases |s|
  {
    if s != [] && IsSpace(s[|s| - 1]) then RStrip(s[..|s| - 1]) else s
  }

  /** The target line read alongside source line `i`: `readline()` past the end gives ''. */
  function TargetLine(tgt: seq<Line>, i: nat): Line {
    if i < |tgt| then tgt[i] else ""
  }

  /** One pair per source line; the target is consumed one line per source
      line, so a longer target is cut and a shorter one is padded with ''. */
  function PairGenerator<S, T>(src: seq<Line>, tgt: seq<Line>,
                               srcTokenize: Line -> S, tgtTokenize: Line -> T): (r: seq<(S, T)>)
    ensures |r| == |src|
    ensures forall i :: 0 <= i < |src| ==>
      r[i] == (srcTokenize(RStrip(src[i])), tgtTokenize(RStrip(TargetLine(tgt, i))))
  {
    if src == [] then []
    else
      var tgtLine := if tgt == [] then "" else tgt[0];
      var rest := if tgt == [] then [] else tgt[1..];
      [(srcTokenize(RStrip(src[0])), tgtTokenize(RStrip(tgtLine)))]
        + PairGenerator(src[1..], rest, srcTokenize, tgtTokenize)
  }

  /** The tokenizer `get_tokenize(None)` returns: the line itself. */
  function NoTokenize(line: Line): Line {
    line
  }

  /** The files `get_pairs` names with a literal '/' (only string names are modelled). */
  function PairPaths(outputDir: Path, srcName: Value, tgtName: Value): (r: Result<(Path, Path)>)
    ensures r.Ok? <==> srcName.Str? && tgtName.Str?
    ensures r.Ok? ==> r.value == (Canon(SlashJoin(outputDir, srcName.s)), Canon(SlashJoin(outputDir, tgtName.s)))
  {
    if srcName.Str? && tgtName.Str? then
      Ok((Canon(SlashJoin(outputDir, srcName.s)), Canon(SlashJoin(outputDir, tgtName.s))))
    else Err(TypeError)
  }

  /** Pulling the first pair: both files are opened, the source first; then
      every pair is produced untokenized. */
  function ReadPairs(fs: FileSystem, paths: (Path, Path)): (r: Result<seq<Pair>>)
    ensures r.Ok? <==> paths.0 in fs && paths.1 in fs
    ensures paths.0 !in fs ==> r == Err(FileNotFound(paths.0))
    ensures paths.0 in fs && paths.1 !in fs ==> r == Err(FileNotFound(paths.1))
    ensures r.Ok? ==> |r.value| == |fs[paths.0]|
  {
    var src :- ReadFile(fs, paths.0);
    var tgt :- ReadFile(fs, paths.1);
    Ok(PairGenerator(src, tgt, NoTokenize, NoTokenize))
  }

  /** Untokenized pairs of two files: row `i` holds both stripped lines `i`,
      the target side '' once the target file has run out. */
  lemma {:induction false} ReadPairsRows(fs: FileSystem, paths: (Path, Path), i: nat)
    requires paths.0 in fs && paths.1 in fs && i < |fs[paths.0]|
    ensures ReadPairs(fs, paths).Ok?
    ensures ReadPairs(fs, paths).value[i].0 == RStrip(fs[paths.0][i])
    ensures i < |fs[paths.1]| ==> ReadPairs(fs, paths).value[i].1 == RStrip(fs[paths.1][i])
    ensures i >= |fs[paths.1]| ==> ReadPairs(fs, paths).value[i].1 == ""
  {
    var r := PairGenerator(fs[paths.0], fs[paths.1], NoTokenize, NoTokenize);
    assert r[i] == (NoTokenize(RStrip(fs[paths.0][i])), NoTokenize(RStrip(TargetLine(fs[paths.1], i))));
    assert RStrip("") == "";
  }
}
