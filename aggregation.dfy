/**
 * Time bucketing shared by the hourly group-by of module/openaq_api.py and the
 * daily resample of module/prediction.py.
 *
 * A timestamp is an integer number of seconds on the local clock. The
 * functions are generic in the bucket `key` of a timestamp; the source uses
 * HourOf and DayOf, where Dafny's Euclidean division is the floor that pandas'
 * `dt.floor` and `resample` apply.
 */
module Aggregation {

  import opened Options

  /** One concentration reading (µg/m³) at a local timestamp. */
  datatype Reading = Reading(time: int, value: real)

  /** One occupied bucket: its index and the mean of the readings in it. */
  datatype Bin = Bin(bucket: int, mean: real)

  const SecondsPerHour: nat := 3600
  const SecondsPerDay: nat := 86400

  function Sum(s: seq<real>): real
  {
    if s == [] then 0.0 else s[0] + Sum(s[1..])
  }

  /** The arithmetic mean, as pandas' `mean()`. */
  function Mean(s: seq<real>): real
    requires |s| > 0
  {
    Sum(s) / |s| as real
  }

  lemma {:induction false} SumBounds(s: seq<real>, lo: real, hi: real)
    requires forall i :: 0 <= i < |s| ==> lo <= s[i] <= hi
    ensures |s| as real * lo <= Sum(s) <= |s| as real * hi
  {
    if s != [] {
      SumBounds(s[1..], lo, hi);
    }
  }

  /** The mean lies between any lower and upper bound of the values. */
  lemma MeanBetween(s: seq<real>, lo: real, hi: real)
    requires |s| > 0
    requires forall i :: 0 <= i < |s| ==> lo <= s[i] <= hi
    ensures lo <= Mean(s) <= hi
  {
    SumBounds(s, lo, hi);
    var n := |s| as real;
    assert Sum(s) / n >= lo by { assert Sum(s) >= n * lo; }
    assert Sum(s) / n <= hi by { assert Sum(s) <= n * hi; }
  }

  /** The smallest of the values. */
  function Least(s: seq<real>): (m: real)
    requires |s| > 0
    ensures forall i :: 0 <= i < |s| ==> m <= s[i]
    ensures exists i :: 0 <= i < |s| && s[i] == m
  {
    if |s| == 1 then s[0]
    else
      var rest := Least(s[1..]);
      assert forall i :: 1 <= i < |s| ==> s[i] == s[1..][i - 1];
      if s[0] <= rest then s[0] else rest
  }

  /** The largest of the values. */
  function Greatest(s: seq<real>): (m: real)
    requires |s| > 0
    ensures forall i :: 0 <= i < |s| ==> s[i] <= m
    ensures exists i :: 0 <= i < |s| && s[i] == m
  {
    if |s| == 1 then s[0]
    else
      var rest := Greatest(s[1..]);
      assert forall i :: 1 <= i < |s| ==> s[i] == s[1..][i - 1];
      if s[0] >= rest then s[0] else rest
  }

  /** The mean is at least one of the values and at most one of them. */
  lemma MeanWithinValues(s: seq<real>)
    requires |s| > 0
    ensures exists i :: 0 <= i < |s| && s[i] <= Mean(s)
    ensures exists j :: 0 <= j < |s| && Mean(s) <= s[j]
  {
    MeanBetween(s, Least(s), Greatest(s));
  }

  /** The mean of one value is that value. */
  lemma MeanOfOne(a: real)
    ensures Mean([a]) == a
  {
    assert [a][1..] == [];
    assert Sum([a]) == a;
  }

  /** The mean of two values is their midpoint. */
  lemma MeanOfTwo(a: real, b: real)
    ensures Mean([a, b]) == (a + b) / 2.0
  {
    assert [a, b][1..] == [b];
    assert [b][1..] == [];
    assert Sum([b]) == b;
    assert Sum([a, b]) == a + b;
  }

  /** The hour a timestamp falls in (`dt.floor('h')`, as an hour number). */
  function HourOf(t: int): (h: int)
    ensures h * SecondsPerHour <= t < (h + 1) * SecondsPerHour
  {
    t / SecondsPerHour
  }

  /** The calendar day a timestamp falls in (`resample('D')`, as a day number). */
  function DayOf(t: int): (d: int)
    ensures d * SecondsPerDay <= t < (d + 1) * SecondsPerDay
  {
    t / SecondsPerDay
  }

  /** The values of the readings that fall in bucket `b`, in input order. */
  function ValuesIn(rs: seq<Reading>, key: int -> int, b: int): (vs: seq<real>)
    ensures |vs| <= |rs|
  {
    if rs == [] then []
    else (if key(rs[0].time) == b then [rs[0].value] else []) + ValuesIn(rs[1..], key, b)
  }

  /** Every reading's value is among the values of its bucket. */
  lemma {:induction false} ValuesInHolds(rs: seq<Reading>, key: int -> int, k: nat)
    requires k < |rs|
    ensures rs[k].value in ValuesIn(rs, key, key(rs[k].time))
  {
    if k > 0 {
      assert rs[1..][k - 1] == rs[k];
      ValuesInHolds(rs[1..], key, k - 1);
    }
  }

  /** Only readings of bucket `b` contribute to it. */
  lemma {:induction false} ValuesInOnly(rs: seq<Reading>, key: int -> int, b: int, v: real)
    requires v in ValuesIn(rs, key, b)
    ensures exists k :: 0 <= k < |rs| && key(rs[k].time) == b && rs[k].value == v
  {
    if key(rs[0].time) == b && v == rs[0].value {
    } else {
      ValuesInOnly(rs[1..], key, b, v);
      var k :| 0 <= k < |rs[1..]| && key(rs[1..][k].time) == b && rs[1..][k].value == v;
      assert rs[k + 1] == rs[1..][k];
    }
  }

  /** The mean of bucket `b`, or None when no reading falls in it (pandas' NaN). */
  function BucketMean(rs: seq<Reading>, key: int -> int, b: int): Option<real>
  {
    var vs := ValuesIn(rs, key, b);
    if vs == [] then None else Some(Mean(vs))
  }

  /** The earliest occupied bucket. */
  function FirstBucket(rs: seq<Reading>, key: int -> int): (b: int)
    requires |rs| > 0
    ensures forall k :: 0 <= k < |rs| ==> b <= key(rs[k].time)
    ensures exists k :: 0 <= k < |rs| && key(rs[k].time) == b
  {
    if |rs| == 1 then key(rs[0].time)
    else
      var m := FirstBucket(rs[1..], key);
      assert forall k :: 1 <= k < |rs| ==> rs[k] == rs[1..][k - 1];
      if key(rs[0].time) <= m then key(rs[0].time) else m
  }

  /** The latest occupied bucket. */
  function LastBucket(rs: seq<Reading>, key: int -> int): (b: int)
    requires |rs| > 0
    ensures forall k :: 0 <= k < |rs| ==> key(rs[k].time) <= b
    ensures exists k :: 0 <= k < |rs| && key(rs[k].time) == b
  {
    if |rs| == 1 then key(rs[0].time)
    else
      var m := LastBucket(rs[1..], key);
      assert forall k :: 1 <= k < |rs| ==> rs[k] == rs[1..][k - 1];
      if key(rs[0].time) >= m then key(rs[0].time) else m
  }

  /** The means of the `n` consecutive buckets starting at `lo`. */
  function BucketsFrom(rs: seq<Reading>, key: int -> int, lo: int, n: nat): (s: seq<Option<real>>)
  {
    seq(n, i => BucketMean(rs, key, lo + i))
  }

  /**
   * pandas' `resample(...).mean()`: one entry per bucket from the first to the
   * last occupied one, gaps included.
   */
  function Resample(rs: seq<Reading>, key: int -> int): (s: seq<Option<real>>)
    requires |rs| > 0
    ensures |s| == LastBucket(rs, key) - FirstBucket(rs, key) + 1
    ensures forall i :: 0 <= i < |s| ==> s[i] == BucketMean(rs, key, FirstBucket(rs, key) + i)
  {
    BucketsFrom(rs, key, FirstBucket(rs, key), LastBucket(rs, key) - FirstBucket(rs, key) + 1)
  }

  /** Entry `i` of a resampled series is the mean of bucket `FirstBucket + i`. */
  lemma ResampleAt(rs: seq<Reading>, key: int -> int, i: nat)
    requires |rs| > 0 && i < |Resample(rs, key)|
    ensures Resample(rs, key)[i] == BucketMean(rs, key, FirstBucket(rs, key) + i)
  {
  }

  /** Both ends of a resampled series are occupied buckets. */
  lemma ResampleEnds(rs: seq<Reading>, key: int -> int)
    requires |rs| > 0
    ensures Resample(rs, key)[0].Some?
    ensures Resample(rs, key)[|Resample(rs, key)| - 1].Some?
  {
    FirstEntry(rs, key);
    LastEntry(rs, key);
  }

  /** The first entry of a resampled series is the earliest reading's bucket. */
  lemma FirstEntry(rs: seq<Reading>, key: int -> int)
    requires |rs| > 0
    ensures Resample(rs, key)[0].Some?
  {
    var k :| 0 <= k < |rs| && key(rs[k].time) == FirstBucket(rs, key);
    ReadingEntry(rs, key, k);
  }

  /** The last entry of a resampled series is the latest reading's bucket. */
  lemma LastEntry(rs: seq<Reading>, key: int -> int)
    requires |rs| > 0
    ensures Resample(rs, key)[|Resample(rs, key)| - 1].Some?
  {
    var m :| 0 <= m < |rs| && key(rs[m].time) == LastBucket(rs, key);
    ReadingEntry(rs, key, m);
    assert key(rs[m].time) - FirstBucket(rs, key) == |Resample(rs, key)| - 1;
  }

  /** The entry of the bucket of a reading in the resampled series is occupied. */
  lemma ReadingEntry(rs: seq<Reading>, key: int -> int, k: nat)
    requires k < |rs|
    ensures var i := key(rs[k].time) - FirstBucket(rs, key);
      0 <= i < |Resample(rs, key)| && Resample(rs, key)[i].Some?
  {
    ReadingBucketMean(rs, key, k);
  }

  /** The bucket of a reading has a mean. */
  lemma ReadingBucketMean(rs: seq<Reading>, key: int -> int, k: nat)
    requires k < |rs|
    ensures BucketMean(rs, key, key(rs[k].time)).Some?
  {
    ValuesInHolds(rs, key, k);
  }

  function CountSome(s: seq<Option<real>>): nat
  {
    if s == [] then 0 else (if s[0].Some? then 1 else 0) + CountSome(s[1..])
  }

  /** The occupied entries of `s`, keyed by bucket, where `s[0]` is bucket `lo`. */
  function Occupied(s: seq<Option<real>>, lo: int): (bins: seq<Bin>)
    ensures |bins| == CountSome(s)
    ensures forall i, j :: 0 <= i < j < |bins| ==> bins[i].bucket < bins[j].bucket
    ensures forall i :: 0 <= i < |bins| ==>
      lo <= bins[i].bucket < lo + |s| && s[bins[i].bucket - lo] == Some(bins[i].mean)
  {
    if s == [] then []
    else
      var rest := Occupied(s[1..], lo + 1);
      if s[0].Some? then [Bin(lo, s[0].value)] + rest else rest
  }

  /** Every occupied entry of `s` has its bin. */
  lemma OccupiedCovers(s: seq<Option<real>>, lo: int, j: nat)
    requires j < |s| && s[j].Some?
    ensures exists i :: 0 <= i < |Occupied(s, lo)| && Occupied(s, lo)[i].bucket == lo + j
  {
    var i := OccupiedIndex(s, lo, j);
  }

  /** The position of the bin of occupied entry `j`. */
  lemma {:induction false} OccupiedIndex(s: seq<Option<real>>, lo: int, j: nat) returns (i: nat)
    requires j < |s| && s[j].Some?
    ensures i < |Occupied(s, lo)| && Occupied(s, lo)[i].bucket == lo + j
    decreases j
  {
    if j == 0 {
      i := 0;
      OccupiedHead(s, lo);
    } else {
      assert s[1..][j - 1] == s[j];
      var k := OccupiedIndex(s[1..], lo + 1, j - 1);
      i := OccupiedShift(s, lo, k);
    }
  }

  /** An occupied first entry gives the first bin. */
  lemma OccupiedHead(s: seq<Option<real>>, lo: int)
    requires s != [] && s[0].Some?
    ensures |Occupied(s, lo)| > 0 && Occupied(s, lo)[0] == Bin(lo, s[0].value)
  {
  }

  /** Bin `k` of the rest's bins is a bin of the whole, after the first entry's bin if any. */
  lemma OccupiedShift(s: seq<Option<real>>, lo: int, k: nat) returns (i: nat)
    requires s != [] && k < |Occupied(s[1..], lo + 1)|
    ensures i < |Occupied(s, lo)| && Occupied(s, lo)[i] == Occupied(s[1..], lo + 1)[k]
  {
    var head := if s[0].Some? then [Bin(lo, s[0].value)] else [];
    OccupiedCons(s, lo);
    i := |head| + k;
    BinAt(Occupied(s, lo), head, Occupied(s[1..], lo + 1), i);
    assert i - |head| == k;
    assert i < |Occupied(s, lo)|;
    assert Occupied(s, lo)[i] == Occupied(s[1..], lo + 1)[i - |head|];
  }

  /** Bin `i` of `head + rest` is taken from `head` or, past it, from `rest`. */
  lemma BinAt(bins: seq<Bin>, head: seq<Bin>, rest: seq<Bin>, i: nat)
    requires bins == head + rest && i < |head| + |rest|
    ensures i < |bins| && bins[i] == if i < |head| then head[i] else rest[i - |head|]
  {
  }

  /** The first entry's bin, if occupied, then the bins of the rest. */
  lemma OccupiedCons(s: seq<Option<real>>, lo: int)
    requires s != []
    ensures Occupied(s, lo) == (if s[0].Some? then [Bin(lo, s[0].value)] else []) + Occupied(s[1..], lo + 1)
  {
    if s[0].None? {
      assert [] + Occupied(s[1..], lo + 1) == Occupied(s[1..], lo + 1);
    }
  }

  /** A reading that falls in none of the buckets `lo .. lo+n-1` does not change their occupancy. */
  lemma {:induction false} CountDropFirst(rs: seq<Reading>, key: int -> int, lo: int, n: nat)
    requires |rs| > 0
    ensures CountSome(BucketsFrom(rs, key, lo, n))
      <= CountSome(BucketsFrom(rs[1..], key, lo, n))
         + (if lo <= key(rs[0].time) < lo + n then 1 else 0)
    decreases n
  {
    if n > 0 {
      CountDropFirst(rs, key, lo + 1, n - 1);
      var s, t := BucketsFrom(rs, key, lo, n), BucketsFrom(rs[1..], key, lo, n);
      assert s[1..] == BucketsFrom(rs, key, lo + 1, n - 1);
      assert t[1..] == BucketsFrom(rs[1..], key, lo + 1, n - 1);
      assert s[0] == BucketMean(rs, key, lo) && t[0] == BucketMean(rs[1..], key, lo);
      assert key(rs[0].time) != lo ==> ValuesIn(rs, key, lo) == ValuesIn(rs[1..], key, lo);
    }
  }

  /** No more buckets are occupied than there are readings. */
  lemma {:induction false} CountAtMostReadings(rs: seq<Reading>, key: int -> int, lo: int, n: nat)
        ensures CountSome(BucketsFrom(rs, key, lo, n)) <= |rs|
    decreases |rs|, n
  {
    if rs == [] {
      if n > 0 {
        CountAtMostReadings(rs, key, lo + 1, n - 1);
        var s := BucketsFrom(rs, key, lo, n);
        assert s[1..] == BucketsFrom(rs, key, lo + 1, n - 1);
        assert s[0] == BucketMean(rs, key, lo) == None;
      }
    } else {
      CountDropFirst(rs, key, lo, n);
      CountAtMostReadings(rs[1..], key, lo, n);
    }
  }

  /**
   * pandas' `groupby(bucket).mean()`: one bin per occupied bucket, in increasing
   * bucket order, each holding the mean of every reading in that bucket.
   */
  function GroupMeans(rs: seq<Reading>, key: int -> int): (bins: seq<Bin>)
    requires |rs| > 0
    ensures 0 < |bins| <= |rs|
    ensures forall i, j :: 0 <= i < j < |bins| ==> bins[i].bucket < bins[j].bucket
    ensures forall i :: 0 <= i < |bins| ==> BucketMean(rs, key, bins[i].bucket) == Some(bins[i].mean)
  {
    OccupiedResample(rs, key);
    Occupied(Resample(rs, key), FirstBucket(rs, key))
  }

  /** The occupied entries of the resampled series: at least one, at most one per reading, each a bucket's mean. */
  lemma OccupiedResample(rs: seq<Reading>, key: int -> int)
    requires |rs| > 0
    ensures var bins := Occupied(Resample(rs, key), FirstBucket(rs, key));
      && 0 < |bins| <= |rs|
      && forall i :: 0 <= i < |bins| ==> BucketMean(rs, key, bins[i].bucket) == Some(bins[i].mean)
  {
    var lo := FirstBucket(rs, key);
    var s := Resample(rs, key);
    assert s == BucketsFrom(rs, key, lo, |s|);
    CountAtMostReadings(rs, key, lo, |s|);
    ResampleEnds(rs, key);
    var bins := Occupied(s, lo);
    assert forall i :: 0 <= i < |bins| ==> s[bins[i].bucket - lo] == BucketMean(rs, key, bins[i].bucket);
  }

  /** The resampled entry of a reading's bucket is occupied. */
  lemma ReadingBucketOccupied(rs: seq<Reading>, key: int -> int, k: nat)
    requires k < |rs|
    ensures 0 <= key(rs[k].time) - FirstBucket(rs, key) < |Resample(rs, key)|
    ensures Resample(rs, key)[key(rs[k].time) - FirstBucket(rs, key)].Some?
  {
    ValuesInHolds(rs, key, k);
  }

  /** Every reading's bucket has its bin. */
  lemma GroupMeansCovers(rs: seq<Reading>, key: int -> int, k: nat)
    requires k < |rs|
    ensures exists i :: 0 <= i < |GroupMeans(rs, key)| && GroupMeans(rs, key)[i].bucket == key(rs[k].time)
  {
    var lo := FirstBucket(rs, key);
    var s := Resample(rs, key);
    var bins := GroupMeans(rs, key);
    assert bins == Occupied(s, lo);
    ReadingBucketOccupied(rs, key, k);
    OccupiedCovers(s, lo, key(rs[k].time) - lo);
  }

}
