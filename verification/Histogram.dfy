/**
 Cumulative histograms for templates (internal/templates/templates_extra.go): how many rows
 have a value that is at most each of the buckets.
 */
module Histogram {
  import opened Wrappers

  const MAX_INT: int := 0x7FFF_FFFF_FFFF_FFFF
  const MIN_INT: int := -0x8000_0000_0000_0000

  // The value of a column, by its Go type; `Other` is everything the converters ignore.
  datatype Value =
    | Int(i: int) | Uint32(i: int) | Uint64(i: int) | Int32(i: int) | Int64(i: int)
    | Float32(f: real) | Float64(f: real)
    | Other(text: string)

  // A cell of a resulting row: a copied value, the bucket's label or a count.
  datatype Cell = Copied(v: Value) | Le(text: string) | Count(n: nat)

  type Row = map<string, Value>

  // ---- what is counted ----

  // The values of the rows, as far as they can be converted.
  function Converted<T>(rows: seq<Row>, key: string, conv: Value -> Option<T>): seq<T>
    requires forall r :: r in rows ==> key in r
  {
    if rows == [] then []
    else
      var rest := Converted(rows[..|rows| - 1], key, conv);
      match conv(rows[|rows| - 1][key])
      case Some(x) => rest + [x]
      case None => rest
  }

  function AtMost<T>(xs: seq<T>, b: T, le: (T, T) -> bool): nat {
    if xs == [] then 0
    else AtMost(xs[..|xs| - 1], b, le) + (if le(xs[|xs| - 1], b) then 1 else 0)
  }

  predicate Converts<T>(row: Row, key: string, conv: Value -> Option<T>)
    requires key in row
  {
    conv(row[key]).Some?
  }

  predicate IsAtMost<T>(row: Row, key: string, conv: Value -> Option<T>, b: T, le: (T, T) -> bool)
    requires key in row
  {
    match conv(row[key])
    case Some(x) => le(x, b)
    case None => false
  }

  // There are as many converted values as rows whose value can be converted.
  lemma {:induction false} ConvertedCounts<T>(rows: seq<Row>, key: string, conv: Value -> Option<T>)
    requires forall i :: 0 <= i < |rows| ==> key in rows[i]
    ensures |Converted(rows, key, conv)| == |set i | 0 <= i < |rows| && Converts(rows[i], key, conv)|
  {
    if rows != [] {
      var n := |rows| - 1;
      var front := rows[..n];
      ConvertedCounts(front, key, conv);
      var before := set i | 0 <= i < n && Converts(front[i], key, conv);
      var all := set i | 0 <= i < |rows| && Converts(rows[i], key, conv);
      assert all == before + (if Converts(rows[n], key, conv) then {n} else {});
    }
  }

  // And as many of them are at most b as rows have such a value.
  lemma {:induction false} AtMostCounts<T>(rows: seq<Row>, key: string, conv: Value -> Option<T>, b: T,
                                           le: (T, T) -> bool)
    requires forall i :: 0 <= i < |rows| ==> key in rows[i]
    ensures AtMost(Converted(rows, key, conv), b, le) ==
            |set i | 0 <= i < |rows| && IsAtMost(rows[i], key, conv, b, le)|
  {
    if rows != [] {
      var n := |rows| - 1;
      var front := rows[..n];
      AtMostCounts(front, key, conv, b, le);
      var before := set i | 0 <= i < n && IsAtMost(front[i], key, conv, b, le);
      var all := set i | 0 <= i < |rows| && IsAtMost(rows[i], key, conv, b, le);
      assert all == before + (if IsAtMost(rows[n], key, conv, b, le) then {n} else {});
      if Converts(rows[n], key, conv) {
        Pushed(Converted(front, key, conv), conv(rows[n][key]).value, b, le);
      }
    }
  }

  lemma {:induction false} AtMostAdds<T>(xs: seq<T>, ys: seq<T>, b: T, le: (T, T) -> bool)
    ensures AtMost(xs + ys, b, le) == AtMost(xs, b, le) + AtMost(ys, b, le)
  {
    if ys == [] {
      assert xs + ys == xs;
    } else {
      assert (xs + ys)[..|xs + ys| - 1] == xs + ys[..|ys| - 1];
      AtMostAdds(xs, ys[..|ys| - 1], b, le);
    }
  }

  lemma {:induction false} ConvertedAdds<T>(rows: seq<Row>, more: seq<Row>, key: string, conv: Value -> Option<T>)
    requires forall r :: r in rows + more ==> key in r
    ensures forall r :: r in rows || r in more ==> r in rows + more
    ensures Converted(rows + more, key, conv) == Converted(rows, key, conv) + Converted(more, key, conv)
  {
    assert forall r :: r in rows || r in more ==> r in rows + more;
    if more == [] {
      assert rows + more == rows;
    } else {
      var front := more[..|more| - 1];
      assert (rows + more)[..|rows + more| - 1] == rows + front;
      ConvertedAdds(rows, front, key, conv);
    }
  }

  // ---- the generator ----

  // One result row: the first input row with the label and the count put in.
  function ResultRow(first: Row, bucket: string, count: nat): map<string, Cell> {
    (map k | k in first :: Copied(first[k]))["le" := Le(bucket)]["count" := Count(count)]
  }

  function Result<T>(rows: seq<Row>, key: string, buckets: seq<T>, conv: Value -> Option<T>, le: (T, T) -> bool,
                     format: T -> string): seq<map<string, Cell>>
    requires forall r :: r in rows ==> key in r
  {
    if rows == [] then []
    else
      var xs := Converted(rows, key, conv);
      seq(|buckets|, i requires 0 <= i < |buckets| =>
        ResultRow(rows[0], format(buckets[i]), AtMost(xs, buckets[i], le)))
      + [ResultRow(rows[0], "+Inf", |xs|)]
  }

  // Counts one more value in every bucket it belongs to.
  method CountValue<T>(bucketsCnt: array<nat>, buckets: seq<T>, value: T, le: (T, T) -> bool, ghost xs: seq<T>)
    requires bucketsCnt.Length == |buckets|
    requires forall k :: 0 <= k < |buckets| ==> bucketsCnt[k] == AtMost(xs, buckets[k], le)
    modifies bucketsCnt
    ensures forall k :: 0 <= k < |buckets| ==> bucketsCnt[k] == AtMost(xs + [value], buckets[k], le)
  {
    assert (xs + [value])[..|xs|] == xs;
    for k := 0 to |buckets|
      invariant forall n :: 0 <= n < k ==> bucketsCnt[n] == AtMost(xs + [value], buckets[n], le)
      invariant forall n :: k <= n < |buckets| ==> bucketsCnt[n] == AtMost(xs, buckets[n], le)
    {
      if le(value, buckets[k]) {
        bucketsCnt[k] := bucketsCnt[k] + 1;
      }
    }
  }

  // The counts of all buckets, and of all values.
  method CountRows<T>(rows: seq<Row>, key: string, buckets: seq<T>, conv: Value -> Option<T>, le: (T, T) -> bool)
    returns (bucketsCnt: array<nat>, allCnt: nat)
    requires forall r :: r in rows ==> key in r
    ensures bucketsCnt.Length == |buckets| && allCnt == |Converted(rows, key, conv)|
    ensures forall k :: 0 <= k < |buckets| ==> bucketsCnt[k] == AtMost(Converted(rows, key, conv), buckets[k], le)
  {
    bucketsCnt := new nat[|buckets|](_ => 0);
    allCnt := 0;
    for i := 0 to |rows|
      invariant allCnt == |Converted(rows[..i], key, conv)|
      invariant forall k :: 0 <= k < |buckets| ==>
                  bucketsCnt[k] == AtMost(Converted(rows[..i], key, conv), buckets[k], le)
    {
      assert rows[..i + 1][..i] == rows[..i];
      match conv(rows[i][key])
      case None =>
      case Some(value) =>
        CountValue(bucketsCnt, buckets, value, le, Converted(rows[..i], key, conv));
        allCnt := allCnt + 1;
    }
    assert rows[..|rows|] == rows;
  }

  method Generate<T>(rows: seq<Row>, key: string, buckets: seq<T>, conv: Value -> Option<T>, le: (T, T) -> bool,
                     format: T -> string)
    returns (res: seq<map<string, Cell>>)
    requires forall r :: r in rows ==> key in r
    ensures res == Result(rows, key, buckets, conv, le, format)
  {
    if |rows| == 0 {
      return [];
    }
    var bucketsCnt, allCnt := CountRows(rows, key, buckets, conv, le);
    ghost var all := Result(rows, key, buckets, conv, le, format);
    res := [];
    for i := 0 to |buckets|
      invariant res == all[..i]
    {
      assert all[i] == ResultRow(rows[0], format(buckets[i]), bucketsCnt[i]);
      res := res + [ResultRow(rows[0], format(buckets[i]), bucketsCnt[i])];
    }
    res := res + [ResultRow(rows[0], "+Inf", allCnt)];
  }

  function CountOf(row: map<string, Cell>): nat {
    if "count" in row && row["count"].Count? then row["count"].n else 0
  }

  ghost predicate Transitive<T(!new)>(le: (T, T) -> bool) {
    forall x, y, z :: le(x, y) && le(y, z) ==> le(x, z)
  }

  lemma {:induction false} AtMostGrows<T(!new)>(xs: seq<T>, b: T, c: T, le: (T, T) -> bool)
    requires Transitive(le) && le(b, c)
    ensures AtMost(xs, b, le) <= AtMost(xs, c, le)
  {
    if xs != [] {
      AtMostGrows(xs[..|xs| - 1], b, c, le);
    }
  }

  lemma {:induction false} AtMostIsBounded<T>(xs: seq<T>, b: T, le: (T, T) -> bool)
    ensures AtMost(xs, b, le) <= |xs|
  {
    if xs != [] {
      AtMostIsBounded(xs[..|xs| - 1], b, le);
    }
  }

  // The counts of the resulting rows: one row per bucket, then the one of all values.
  lemma CountsOfResult<T>(rows: seq<Row>, key: string, buckets: seq<T>, conv: Value -> Option<T>, le: (T, T) -> bool,
                          format: T -> string, i: nat)
    requires rows != [] && (forall r :: r in rows ==> key in r) && i <= |buckets|
    ensures |Result(rows, key, buckets, conv, le, format)| == |buckets| + 1
    ensures CountOf(Result(rows, key, buckets, conv, le, format)[i]) ==
            var xs := Converted(rows, key, conv); if i < |buckets| then AtMost(xs, buckets[i], le) else |xs|
  {
  }

  // A histogram over sorted buckets is cumulative, and the last row counts everything.
  lemma HistogramIsCumulative<T(!new)>(rows: seq<Row>, key: string, buckets: seq<T>, conv: Value -> Option<T>,
                                       le: (T, T) -> bool, format: T -> string, i: nat, j: nat)
    requires rows != [] && (forall r :: r in rows ==> key in r)
    requires Transitive(le) && i < j <= |buckets| && (j < |buckets| ==> le(buckets[i], buckets[j]))
    ensures |Result(rows, key, buckets, conv, le, format)| == |buckets| + 1
    ensures CountOf(Result(rows, key, buckets, conv, le, format)[i]) <=
            CountOf(Result(rows, key, buckets, conv, le, format)[j])
  {
    CountsOfResult(rows, key, buckets, conv, le, format, i);
    CountsOfResult(rows, key, buckets, conv, le, format, j);
    var xs := Converted(rows, key, conv);
    if j < |buckets| {
      AtMostGrows(xs, buckets[i], buckets[j], le);
    } else {
      AtMostIsBounded(xs, buckets[i], le);
    }
  }

  // The histogram of two non-empty inputs together is the sum of theirs.
  lemma HistogramsAdd<T>(rows: seq<Row>, more: seq<Row>, key: string, buckets: seq<T>, conv: Value -> Option<T>,
                         le: (T, T) -> bool, format: T -> string, i: nat)
    requires rows != [] && more != [] && i <= |buckets|
    requires forall r :: r in rows + more ==> key in r
    ensures forall r :: r in rows || r in more ==> r in rows + more
    ensures |Result(rows + more, key, buckets, conv, le, format)| == |buckets| + 1 ==
            |Result(rows, key, buckets, conv, le, format)| == |Result(more, key, buckets, conv, le, format)|
    ensures CountOf(Result(rows + more, key, buckets, conv, le, format)[i]) ==
            CountOf(Result(rows, key, buckets, conv, le, format)[i]) +
            CountOf(Result(more, key, buckets, conv, le, format)[i])
  {
    ConvertedAdds(rows, more, key, conv);
    CountsOfResult(rows + more, key, buckets, conv, le, format, i);
    CountsOfResult(rows, key, buckets, conv, le, format, i);
    CountsOfResult(more, key, buckets, conv, le, format, i);
    if i < |buckets| {
      AtMostAdds(Converted(rows, key, conv), Converted(more, key, conv), buckets[i], le);
    }
  }

  // ---- the two converters ----

  function Ceil(x: real): int {
    -((-x).Floor)
  }

  function ToReal(v: Value): Option<real> {
    match v
    case Float32(f) => Some(f)
    case Float64(f) => Some(f)
    case Other(_) => None
    case _ => Some(v.i as real)
  }

  function ToInt(v: Value): Option<int> {
    match v
    case Uint64(i) => Some(if i < MAX_INT then i else MAX_INT)
    case Float32(f) => Some(Ceil(f))
    case Float64(f) => Some(Ceil(f))
    case Other(_) => None
    case _ => Some(v.i)
  }

  function LeInt(x: int, y: int): bool { x <= y }

  function LeReal(x: real, y: real): bool { x <= y }

  // Buckets are Go ints.
  predicate IsGoInt(b: int) {
    MIN_INT <= b <= MAX_INT
  }

  lemma LargestInt()
    ensures MAX_INT == 9_223_372_036_854_775_807 && MIN_INT == -9_223_372_036_854_775_808
  {
  }

  // A value of its Go type; a float is one whose ceiling is a Go int.
  predicate Representable(v: Value) {
    match v
    case Int(i) => MIN_INT <= i <= MAX_INT
    case Uint32(i) => 0 <= i < 0x1_0000_0000
    case Uint64(i) => 0 <= i < 0x1_0000_0000_0000_0000
    case Int32(i) => -0x8000_0000 <= i < 0x8000_0000
    case Int64(i) => MIN_INT <= i <= MAX_INT
    case Float32(f) => MIN_INT <= Ceil(f) <= MAX_INT
    case Float64(f) => MIN_INT <= Ceil(f) <= MAX_INT
    case Other(_) => true
  }

  // The integer converter maps it to the largest int, which it exceeds.
  predicate Clamped(v: Value) {
    v.Uint64? && v.i > MAX_INT
  }

  // Comparing a value with an integer bucket after the conversion gives what comparing the
  // exact value gives, except for a clamped value in the bucket of the largest int.
  lemma ConversionKeepsOrder(v: Value, b: int)
    requires Representable(v) && IsGoInt(b) && !v.Other?
    ensures (ToInt(v).value <= b <==> ToReal(v).value <= b as real) <==> !(Clamped(v) && b == MAX_INT)
    ensures ToReal(v).value <= b as real ==> ToInt(v).value <= b
  {
  }

  function ClampedRows(rows: seq<Row>, key: string): nat
    requires forall r :: r in rows ==> key in r
  {
    if rows == [] then 0
    else ClampedRows(rows[..|rows| - 1], key) + (if Clamped(rows[|rows| - 1][key]) then 1 else 0)
  }

  // The integer histogram counts what comparing the exact values would count, for every
  // bucket below the largest int; in the bucket of the largest int it counts the clamped
  // rows as well.
  lemma {:induction false} IntegerBucketsAreExact(rows: seq<Row>, key: string, b: int)
    requires forall r :: r in rows ==> key in r && Representable(r[key])
    requires IsGoInt(b)
    ensures AtMost(Converted(rows, key, ToInt), b, LeInt) ==
            AtMost(Converted(rows, key, ToReal), b as real, LeReal) +
            (if b == MAX_INT then ClampedRows(rows, key) else 0)
    ensures |Converted(rows, key, ToInt)| == |Converted(rows, key, ToReal)|
  {
    if rows != [] {
      var front, last := rows[..|rows| - 1], rows[|rows| - 1];
      IntegerBucketsAreExact(front, key, b);
      assert last in rows;
      if !last[key].Other? {
        ConversionKeepsOrder(last[key], b);
        Pushed(Converted(front, key, ToInt), ToInt(last[key]).value, b, LeInt);
        Pushed(Converted(front, key, ToReal), ToReal(last[key]).value, b as real, LeReal);
      }
    }
  }

  lemma Pushed<T>(xs: seq<T>, x: T, b: T, le: (T, T) -> bool)
    ensures AtMost(xs + [x], b, le) == AtMost(xs, b, le) + (if le(x, b) then 1 else 0)
  {
  }

  // ---- what the template functions return ----

  // The exact value of a column is at most a real bound.
  predicate ExactlyAtMost(v: Value, b: real) {
    match v
    case Int(i) => i as real <= b
    case Uint32(i) => i as real <= b
    case Uint64(i) => i as real <= b
    case Int32(i) => i as real <= b
    case Int64(i) => i as real <= b
    case Float32(f) => f <= b
    case Float64(f) => f <= b
    case Other(_) => false
  }

  predicate IsNumber(v: Value) {
    !v.Other?
  }

  // Each resulting row is the first input row with the label of its bucket, "+Inf" for the
  // last, and a count put in.
  lemma RowsOfResult<T>(rows: seq<Row>, key: string, buckets: seq<T>, conv: Value -> Option<T>, le: (T, T) -> bool,
                        format: T -> string, i: nat, k: string)
    requires rows != [] && (forall r :: r in rows ==> key in r) && i <= |buckets|
    ensures |Result(rows, key, buckets, conv, le, format)| == |buckets| + 1
    ensures var row := Result(rows, key, buckets, conv, le, format)[i];
      && (k in row <==> k in rows[0] || k == "le" || k == "count")
      && row["le"] == Le(if i < |buckets| then format(buckets[i]) else "+Inf")
      && row["count"].Count?
      && (k in rows[0] && k != "le" && k != "count" ==> row[k] == Copied(rows[0][k]))
  {
  }

  lemma NoRowsNoResult<T>(key: string, buckets: seq<T>, conv: Value -> Option<T>, le: (T, T) -> bool,
                          format: T -> string)
    ensures Result([], key, buckets, conv, le, format) == []
  {
  }

  // A float bucket counts the rows whose exact value is at most its bound, "+Inf" those with
  // a number.
  lemma RealBucketsAreExact(rows: seq<Row>, key: string, b: real)
    requires forall i :: 0 <= i < |rows| ==> key in rows[i]
    ensures AtMost(Converted(rows, key, ToReal), b, LeReal) ==
            |set i | 0 <= i < |rows| && ExactlyAtMost(rows[i][key], b)|
    ensures |Converted(rows, key, ToReal)| == |set i | 0 <= i < |rows| && IsNumber(rows[i][key])|
  {
    AtMostCounts(rows, key, ToReal, b, LeReal);
    ConvertedCounts(rows, key, ToReal);
    var counted := set i | 0 <= i < |rows| && IsAtMost(rows[i], key, ToReal, b, LeReal);
    assert counted == set i | 0 <= i < |rows| && ExactlyAtMost(rows[i][key], b);
    var converted := set i | 0 <= i < |rows| && Converts(rows[i], key, ToReal);
    assert converted == set i | 0 <= i < |rows| && IsNumber(rows[i][key]);
  }

  // So does an integer bucket below the largest int.
  lemma IntegerBucketsCountExactly(rows: seq<Row>, key: string, b: int)
    requires forall i :: 0 <= i < |rows| ==> key in rows[i] && Representable(rows[i][key])
    requires MIN_INT <= b < MAX_INT
    ensures AtMost(Converted(rows, key, ToInt), b, LeInt) ==
            |set i | 0 <= i < |rows| && ExactlyAtMost(rows[i][key], b as real)|
    ensures |Converted(rows, key, ToInt)| == |set i | 0 <= i < |rows| && IsNumber(rows[i][key])|
  {
    IntegerBucketsAreExact(rows, key, b);
    RealBucketsAreExact(rows, key, b as real);
  }

  // The template functions; the formats stand for "%0.2f" and strconv.Itoa.
  method Buckets(rows: seq<Row>, key: string, buckets: seq<real>, format: real -> string)
    returns (res: seq<map<string, Cell>>)
    requires forall r :: r in rows ==> key in r
    ensures res == Result(rows, key, buckets, ToReal, LeReal, format)
  {
    res := Generate(rows, key, buckets, ToReal, LeReal, format);
  }

  method BucketsInt(rows: seq<Row>, key: string, buckets: seq<int>, format: int -> string)
    returns (res: seq<map<string, Cell>>)
    requires forall r :: r in rows ==> key in r
    ensures res == Result(rows, key, buckets, ToInt, LeInt, format)
  {
    res := Generate(rows, key, buckets, ToInt, LeInt, format);
  }
}
