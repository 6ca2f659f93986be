/** The pure core of `OpusFilter.order_by_rank`: three columns zipped into
    rows, and the rows sorted by their rank string, highest first, with
    Python's stable `sorted(..., reverse=True)`. */
module RankOrder {
  import opened Files

  /** Python's `a < b` on strings: code point by code point, a proper prefix first. */
  predicate StrLess(a: string, b: string) {
    if b == [] then false
    else if a == [] then true
    else if a[0] != b[0] then a[0] < b[0]
    else StrLess(a[1..], b[1..])
  }

  lemma {:induction false} StrLessIrreflexive(a: string)
    ensures !StrLess(a, a)
  {
    if a != [] {
      StrLessIrreflexive(a[1..]);
    }
  }

  lemma {:induction false} StrLessAsymmetric(a: string, b: string)
    ensures !(StrLess(a, b) && StrLess(b, a))
  {
    if a != [] && b != [] && a[0] == b[0] {
      StrLessAsymmetric(a[1..], b[1..]);
    }
  }

  lemma {:induction false} StrLessTransitive(a: string, b: string, c: string)
    requires StrLess(a, b) && StrLess(b, c)
    ensures StrLess(a, c)
  {
    if a != [] && a[0] == b[0] && b[0] == c[0] {
      StrLessTransitive(a[1..], b[1..], c[1..]);
    }
  }

  lemma {:induction false} StrLessTotal(a: string, b: string)
    ensures a == b || StrLess(a, b) || StrLess(b, a)
  {
    if a != [] && b != [] && a[0] == b[0] {
      StrLessTotal(a[1..], b[1..]);
      assert a == [a[0]] + a[1..] && b == [b[0]] + b[1..];
    }
  }

  /** `b <= a` in string order, written as "`a` is not below `b`". */
  lemma NotLessTransitive(a: string, b: string, c: string)
    requires !StrLess(a, b) && !StrLess(b, c)
    ensures !StrLess(a, c)
  {
    StrLessTotal(a, b);
    StrLessTotal(b, c);
    StrLessAsymmetric(a, c);
    if StrLess(b, a) && StrLess(c, b) {
      StrLessTransitive(c, b, a);
    }
  }

  /** One output row: a source line, a target line and its rank, kept together. */
  datatype Row = Row(src: Line, tgt: Line, rank: Line)

  function Min3(a: nat, b: nat, c: nat): nat {
    if a <= b && a <= c then a else if b <= c then b else c
  }

  /** `zip(src, tgt, ranks)`: one row per position that all three columns have. */
  function Zip3(src: seq<Line>, tgt: seq<Line>, ranks: seq<Line>): (r: seq<Row>)
    ensures |r| == Min3(|src|, |tgt|, |ranks|)
    ensures forall i :: 0 <= i < |r| ==> r[i] == Row(src[i], tgt[i], ranks[i])
  {
    if src == [] || tgt == [] || ranks == [] then []
    else [Row(src[0], tgt[0], ranks[0])] + Zip3(src[1..], tgt[1..], ranks[1..])
  }

  /** The rank column never increases in string order. */
  predicate NonIncreasing(rows: seq<Row>) {
    forall i, j :: 0 <= i < j < |rows| ==> !StrLess(rows[i].rank, rows[j].rank)
  }

  /** `x` goes after every row ranked strictly above it and before the rest,
      so it precedes the rows of equal rank that followed it in the input. */
  function Insert(x: Row, s: seq<Row>): (r: seq<Row>)
    ensures |r| == |s| + 1
    ensures r[0] == x || (s != [] && r[0] == s[0])
  {
    if s == [] || !StrLess(x.rank, s[0].rank) then [x] + s
    else [s[0]] + Insert(x, s[1..])
  }

  /** `sorted(rows, key=lambda t: t[2], reverse=True)`. */
  function SortByRank(rows: seq<Row>): (r: seq<Row>)
    ensures |r| == |rows|
  {
    if rows == [] then [] else Insert(rows[0], SortByRank(rows[1..]))
  }

  lemma {:induction false} InsertSorted(x: Row, s: seq<Row>)
    requires NonIncreasing(s)
    ensures NonIncreasing(Insert(x, s))
  {
    if s == [] || !StrLess(x.rank, s[0].rank) {
      forall j | 0 < j < |s| + 1 ensures !StrLess(x.rank, ([x] + s)[j].rank) {
        StrLessIrreflexive(s[0].rank);
        NotLessTransitive(x.rank, s[0].rank, s[j - 1].rank);
      }
    } else {
      var rest := Insert(x, s[1..]);
      InsertSorted(x, s[1..]);
      StrLessAsymmetric(x.rank, s[0].rank);
      forall j | 0 <= j < |rest| ensures !StrLess(s[0].rank, rest[j].rank) {
        StrLessIrreflexive(rest[0].rank);
        NotLessTransitive(s[0].rank, rest[0].rank, rest[j].rank);
      }
    }
  }

  lemma {:induction false} InsertMultiset(x: Row, s: seq<Row>)
    ensures multiset(Insert(x, s)) == multiset(s) + multiset{x}
  {
    if !(s == [] || !StrLess(x.rank, s[0].rank)) {
      InsertMultiset(x, s[1..]);
      assert s == [s[0]] + s[1..];
    }
  }

  /** The rows of rank `k`, in order. */
  function WithRank(rows: seq<Row>, k: Line): (r: seq<Row>)
    ensures |r| <= |rows|
  {
    if rows == [] then []
    else (if rows[0].rank == k then [rows[0]] else []) + WithRank(rows[1..], k)
  }

  lemma {:induction false} InsertWithRank(x: Row, s: seq<Row>, k: Line)
    ensures WithRank(Insert(x, s), k) == (if x.rank == k then [x] else []) + WithRank(s, k)
  {
    if !(s == [] || !StrLess(x.rank, s[0].rank)) {
      InsertWithRank(x, s[1..], k);
      StrLessIrreflexive(x.rank);
      assert s[0].rank != x.rank;
    }
  }

  /** The sorted rows are ranked from highest to lowest in string order. */
  lemma {:induction false} SortByRankSorted(rows: seq<Row>)
    ensures NonIncreasing(SortByRank(rows))
  {
    if rows != [] {
      SortByRankSorted(rows[1..]);
      InsertSorted(rows[0], SortByRank(rows[1..]));
    }
  }

  /** Sorting only reorders the rows; every (src, tgt, rank) triple stays whole. */
  lemma {:induction false} SortByRankPermutes(rows: seq<Row>)
    ensures multiset(SortByRank(rows)) == multiset(rows)
  {
    if rows != [] {
      SortByRankPermutes(rows[1..]);
      InsertMultiset(rows[0], SortByRank(rows[1..]));
      assert rows == [rows[0]] + rows[1..];
    }
  }

  /** The sort is stable: rows of equal rank keep their input order. */
  lemma {:induction false} SortByRankStable(rows: seq<Row>, k: Line)
    ensures WithRank(SortByRank(rows), k) == WithRank(rows, k)
  {
    if rows != [] {
      SortByRankStable(rows[1..], k);
      InsertWithRank(rows[0], SortByRank(rows[1..]), k);
    }
  }

  /** The three output columns of `order_by_rank`. */
  function RankedColumns(src: seq<Line>, tgt: seq<Line>, ranks: seq<Line>): (r: (seq<Line>, seq<Line>, seq<Line>))
    ensures var rows := SortByRank(Zip3(src, tgt, ranks));
            |r.0| == |r.1| == |r.2| == |rows| &&
            forall i :: 0 <= i < |rows| ==> r.0[i] == rows[i].src && r.1[i] == rows[i].tgt && r.2[i] == rows[i].rank
  {
    var rows := SortByRank(Zip3(src, tgt, ranks));
    (seq(|rows|, i requires 0 <= i < |rows| => rows[i].src),
     seq(|rows|, i requires 0 <= i < |rows| => rows[i].tgt),
     seq(|rows|, i requires 0 <= i < |rows| => rows[i].rank))
  }

  /** Everything `order_by_rank` promises about its columns: as many rows as
      the shortest input, a permutation of the zipped rows, ranks from
      highest to lowest, equal ranks in input order. */
  lemma RankedColumnsFacts(src: seq<Line>, tgt: seq<Line>, ranks: seq<Line>)
    ensures var rows := SortByRank(Zip3(src, tgt, ranks));
            var cols := RankedColumns(src, tgt, ranks);
            |cols.0| == Min3(|src|, |tgt|, |ranks|) &&
            multiset(rows) == multiset(Zip3(src, tgt, ranks)) &&
            (forall i, j :: 0 <= i < j < |cols.2| ==> !StrLess(cols.2[i], cols.2[j])) &&
            (forall k :: WithRank(rows, k) == WithRank(Zip3(src, tgt, ranks), k))
  {
    var rows := SortByRank(Zip3(src, tgt, ranks));
    SortByRankSorted(Zip3(src, tgt, ranks));
    SortByRankPermutes(Zip3(src, tgt, ranks));
    forall k ensures WithRank(rows, k) == WithRank(Zip3(src, tgt, ranks), k) {
      SortByRankStable(Zip3(src, tgt, ranks), k);
    }
  }

  /** Ranks 3, 1, 2 on lines A, B, C come out as A, C, B. */
  lemma RankExample()
    ensures RankedColumns(["A", "B", "C"], ["a", "b", "c"], ["3", "1", "2"]) ==
            (["A", "C", "B"], ["a", "c", "b"], ["3", "2", "1"])
  {
    var rows := Zip3(["A", "B", "C"], ["a", "b", "c"], ["3", "1", "2"]);
    assert rows == [Row("A", "a", "3"), Row("B", "b", "1"), Row("C", "c", "2")];
    assert StrLess("1", "2") && !StrLess("3", "2") && !StrLess("2", "1");
    assert SortByRank(rows[2..]) == [Row("C", "c", "2")];
    assert Insert(Row("B", "b", "1"), []) == [Row("B", "b", "1")];
    assert SortByRank(rows[1..]) == [Row("C", "c", "2"), Row("B", "b", "1")];
    assert SortByRank(rows) == [Row("A", "a", "3"), Row("C", "c", "2"), Row("B", "b", "1")];
    var cols := RankedColumns(["A", "B", "C"], ["a", "b", "c"], ["3", "1", "2"]);
    assert cols.0 == ["A", "C", "B"] && cols.1 == ["a", "c", "b"] && cols.2 == ["3", "2", "1"];
  }

  /** Ranks compare as strings: "9" sorts above "10". */
  lemma StringRankExample()
    ensures RankedColumns(["x", "y"], ["u", "v"], ["10", "9"]).0 == ["y", "x"]
  {
    var rows := Zip3(["x", "y"], ["u", "v"], ["10", "9"]);
    assert rows == [Row("x", "u", "10"), Row("y", "v", "9")];
    assert StrLess("10", "9");
  }
}
