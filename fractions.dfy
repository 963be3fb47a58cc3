/**
 * The grouping loop of `_crunchData` in index.js and app/scripts/bubblechart.js:
 * rows are appended, in input order, to one of the four buckets `A`, `B`, `C`,
 * `D` named by their `fraction` field.
 */
module Fractions {
  import opened Js
  import opened Seqs

  /** The bucket keys, in the order the chart series come out. */
  const Keys: seq<string> := ["A", "B", "C", "D"]

  /** The `{x, y, size}` object pushed for a row. */
  datatype Point = Point(x: Option<Value>, y: Option<Value>, size: Option<Value>)

  function FractionOf(row: Row): Option<Value> {
    Get(row, "fraction")
  }

  /** `keys.indexOf(v)`: the position of a key `===` to `v`, or -1. */
  function IndexOf(v: Option<Value>): (r: int)
    ensures -1 <= r < |Keys|
    ensures r >= 0 ==> v == Some(Str(Keys[r]))
    ensures r == -1 <==> forall k :: 0 <= k < |Keys| ==> v != Some(Str(Keys[k]))
  {
    match v
    case Some(Str(s)) =>
      if s == "A" then 0 else if s == "B" then 1 else if s == "C" then 2 else if s == "D" then 3 else -1
    case _ => -1
  }

  /** `if (d.fraction)`: only rows with a truthy fraction are grouped. */
  predicate Considered(row: Row) {
    Truthy(FractionOf(row))
  }

  /** A considered row whose fraction is not one of the keys: `cleanData[-1].values` throws. */
  predicate UnknownFraction(row: Row) {
    Considered(row) && IndexOf(FractionOf(row)) < 0
  }

  predicate InBucket(row: Row, key: string) {
    FractionOf(row) == Some(Str(key))
  }

  /** The rows whose fraction is `key`, in input order. */
  function Bucket(rows: seq<Row>, key: string): seq<Row> {
    Filter(rows, (row: Row) => InBucket(row, key))
  }

  function ToPoint(row: Row, acc: Accessors): Point {
    Point(Get(row, acc.x), Get(row, acc.y), Get(row, acc.size))
  }

  function Points(rows: seq<Row>, acc: Accessors): (ps: seq<Point>)
    ensures |ps| == |rows|
  {
    seq(|rows|, i requires 0 <= i < |rows| => ToPoint(rows[i], acc))
  }

  /** Extending the input by one row extends each bucket by at most that row. */
  lemma BucketSnoc(rows: seq<Row>, i: nat, key: string)
    requires i < |rows|
    ensures Bucket(rows[..i + 1], key) == Bucket(rows[..i], key) + (if InBucket(rows[i], key) then [rows[i]] else [])
  {
    assert rows[..i + 1][..i] == rows[..i];
  }

  /** Extending the input by one row appends at most that row's point to a bucket's points. */
  lemma PointsSnoc(rows: seq<Row>, i: nat, key: string, acc: Accessors)
    requires i < |rows|
    ensures Points(Bucket(rows[..i + 1], key), acc)
            == Points(Bucket(rows[..i], key), acc) + (if InBucket(rows[i], key) then [ToPoint(rows[i], acc)] else [])
  {
    BucketSnoc(rows, i, key);
  }

  /**
   * The loop of `_crunchData`: four empty buckets, then each considered row is
   * pushed onto the bucket its fraction names; an unknown fraction throws.
   * On success bucket `k` holds the points of exactly the rows whose fraction
   * is `Keys[k]`, in input order.
   */
  method Group(rows: seq<Row>, acc: Accessors) returns (r: Result<seq<seq<Point>>>)
    ensures r.Err? <==> exists i :: 0 <= i < |rows| && UnknownFraction(rows[i])
    ensures r.Err? ==> r.error == TypeError
    ensures r.Ok? ==> |r.value| == |Keys|
    ensures r.Ok? ==> forall k :: 0 <= k < |Keys| ==> r.value[k] == Points(Bucket(rows, Keys[k]), acc)
  {
    var buckets: seq<seq<Point>> := seq(|Keys|, _ => []);
    for i := 0 to |rows|
      invariant |buckets| == |Keys|
      invariant forall j :: 0 <= j < i ==> !UnknownFraction(rows[j])
      invariant forall k :: 0 <= k < |Keys| ==> buckets[k] == Points(Bucket(rows[..i], Keys[k]), acc)
    {
      var d := rows[i];
      forall k | 0 <= k < |Keys| {
        PointsSnoc(rows, i, Keys[k], acc);
      }
      if Truthy(FractionOf(d)) {
        var index := IndexOf(FractionOf(d));
        if index < 0 {
          return Err(TypeError);
        }
        buckets := buckets[index := buckets[index] + [ToPoint(d, acc)]];
      }
    }
    assert rows[..|rows|] == rows;
    return Ok(buckets);
  }

  /**
   * When every considered row has a known fraction, the buckets partition the
   * considered rows: their sizes add up to the number of rows with a truthy
   * fraction, so no such row is lost or counted twice.
   */
  lemma {:induction false} BucketsPartition(rows: seq<Row>)
    requires forall i :: 0 <= i < |rows| ==> !UnknownFraction(rows[i])
    ensures |Bucket(rows, "A")| + |Bucket(rows, "B")| + |Bucket(rows, "C")| + |Bucket(rows, "D")|
            == |Filter(rows, Considered)|
    decreases |rows|
  {
    if rows != [] {
      var n := |rows| - 1;
      assert rows[..n + 1] == rows;
      BucketSnoc(rows, n, "A");
      BucketSnoc(rows, n, "B");
      BucketSnoc(rows, n, "C");
      BucketSnoc(rows, n, "D");
      BucketsPartition(rows[..n]);
    }
  }

  /** Every bucket holds only rows of its own fraction, in input order. */
  lemma BucketIsOrderedSlice(rows: seq<Row>, key: string)
    ensures Subseq(Bucket(rows, key), rows)
    ensures forall row :: row in Bucket(rows, key) ==> FractionOf(row) == Some(Str(key))
  {
    FilterIsSubseq(rows, (row: Row) => InBucket(row, key));
  }
}
