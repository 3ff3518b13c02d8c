/** The frame decimation of the video proxy: the first source frame of every target timestamp. */
module Decimation {
  import opened Bytes

  const FALLBACK_RATE := 30.0

  /** A source without a usable rate counts as 30 frames per second. */
  function SourceRate(reported: real): (rate: real)
    ensures rate > 0.0
  {
    if reported > 0.0 then reported else FALLBACK_RATE
  }

  /** The time of source frame `i`, in target frames. */
  function Stamp(i: nat, target: real, source: real): real
    requires source > 0.0
  {
    i as real * target / source
  }

  /** The target frame that source frame `i` falls on. */
  function Bucket(i: nat, target: real, source: real): int
    requires source > 0.0
  {
    Stamp(i, target, source).Floor
  }

  /** Source frame `i` is the first of its bucket. */
  predicate OpensBucket(i: nat, target: real, source: real)
    requires source > 0.0
  {
    i == 0 || Bucket(i, target, source) != Bucket(i - 1, target, source)
  }

  /** The frames kept among the first `n`. */
  function Kept(n: nat, target: real, source: real): seq<nat>
    requires source > 0.0
  {
    if n == 0 then []
    else Kept(n - 1, target, source) + (if OpensBucket(n - 1, target, source) then [n - 1] else [])
  }

  function All(n: nat): seq<nat> { seq(n, i => i) }

  /** The numbers of the frames written, for a source of `n` frames; a profile rate is positive. */
  method Decimate(n: nat, profileRate: Option<real>, reportedRate: real) returns (kept: seq<nat>)
    requires profileRate.Some? ==> profileRate.value > 0.0
    ensures profileRate == None ==> kept == All(n)
    ensures profileRate.Some? && reportedRate > 0.0 ==> kept == Kept(n, profileRate.value, reportedRate)
    ensures profileRate.Some? && reportedRate <= 0.0 ==> kept == Kept(n, profileRate.value, 30.0)
  {
    var source := SourceRate(reportedRate);
    var target := if profileRate.Some? then profileRate.value else source;
    kept := [];
    var lastBucket := -1;
    for index := 0 to n
      invariant lastBucket == if profileRate.Some? && index > 0 then Bucket(index - 1, target, source) else -1
      invariant kept == if profileRate.Some? then Kept(index, target, source) else All(index)
    {
      var keep := true;
      if profileRate.Some? {
        BucketGrows(0, index, target, source);
        var bucket := Stamp(index, target, source).Floor;
        if bucket != lastBucket {
          lastBucket := bucket;
        } else {
          keep := false;
        }
      }
      if keep {
        kept := kept + [index];
      }
    }
  }

  // ----- Buckets -----

  lemma Positive(a: real, c: real)
    requires a > 0.0 && c > 0.0
    ensures a * c > 0.0
  {
  }

  lemma MulLess(a: real, b: real, c: real)
    requires a < b && c > 0.0
    ensures a * c < b * c
  {
    Positive(b - a, c);
  }

  lemma Quotient(a: real, c: real)
    requires c > 0.0
    ensures a / c * c == a
  {
  }

  function Ratio(target: real, source: real): real
    requires source > 0.0
  {
    target / source
  }

  function Times(i: nat, r: real): real { i as real * r }

  lemma StampIs(i: nat, target: real, source: real)
    requires source > 0.0
    ensures Stamp(i, target, source) == Times(i, Ratio(target, source))
  {
  }

  lemma TimesStep(i: nat, r: real)
    ensures Times(i + 1, r) == Times(i, r) + r
  {
  }

  /** The ratio of the rates lies on the same side of one as the target rate of the source rate. */
  lemma RatioBounds(target: real, source: real)
    requires target > 0.0 && source > 0.0
    ensures Ratio(target, source) > 0.0
    ensures target <= source ==> Ratio(target, source) <= 1.0
    ensures target >= source ==> Ratio(target, source) >= 1.0
  {
    RatioSide(Ratio(target, source), target, source);
  }

  lemma RatioSide(r: real, target: real, source: real)
    requires target > 0.0 && source > 0.0 && r == Ratio(target, source)
    ensures r > 0.0 && (target <= source ==> r <= 1.0) && (target >= source ==> r >= 1.0)
  {
    Quotient(target, source);
    if r < 0.0 {
      MulLess(r, 0.0, source);
    } else if r > 1.0 {
      MulLess(1.0, r, source);
    } else if r < 1.0 {
      MulLess(r, 1.0, source);
    }
  }

  lemma FloorStep(x: real, r: real)
    ensures r <= 1.0 ==> (x + r).Floor <= x.Floor + 1
    ensures r >= 1.0 ==> (x + r).Floor >= x.Floor + 1
    ensures r >= 0.0 ==> (x + r).Floor >= x.Floor
  {
  }

  /** One source frame on, the timestamp advances by at most one bucket if the target is not faster,
      and by at least one if it is not slower. */
  lemma BucketStep(i: nat, target: real, source: real)
    requires target > 0.0 && source > 0.0
    ensures Bucket(i, target, source) <= Bucket(i + 1, target, source)
    ensures target <= source ==> Bucket(i + 1, target, source) <= Bucket(i, target, source) + 1
    ensures target >= source ==> Bucket(i + 1, target, source) >= Bucket(i, target, source) + 1
  {
    var r := Ratio(target, source);
    StampIs(i, target, source);
    StampIs(i + 1, target, source);
    TimesStep(i, r);
    RatioBounds(target, source);
    FloorStep(Times(i, r), r);
  }

  lemma BucketZero(target: real, source: real)
    requires source > 0.0
    ensures Bucket(0, target, source) == 0
  {
    StampIs(0, target, source);
  }

  lemma {:induction false} BucketGrows(i: nat, j: nat, target: real, source: real)
    requires i <= j && target > 0.0 && source > 0.0
    ensures 0 <= Bucket(i, target, source) <= Bucket(j, target, source)
    decreases j
  {
    if j == 0 {
      BucketZero(target, source);
    } else if i < j {
      BucketGrows(i, j - 1, target, source);
      BucketStep(j - 1, target, source);
    } else {
      BucketGrows(0, j - 1, target, source);
      BucketStep(j - 1, target, source);
    }
  }

  lemma {:induction false} BucketBounds(i: nat, target: real, source: real)
    requires target > 0.0 && source > 0.0
    ensures target <= source ==> Bucket(i, target, source) <= i
    ensures target >= source ==> Bucket(i, target, source) >= i
  {
    if i == 0 {
      BucketZero(target, source);
    } else {
      BucketBounds(i - 1, target, source);
      BucketStep(i - 1, target, source);
    }
  }

  // ----- What is kept -----

  ghost predicate Increasing(kept: seq<nat>, n: nat) {
    && (forall k :: 0 <= k < |kept| ==> kept[k] < n)
    && (forall j, k :: 0 <= j < k < |kept| ==> kept[j] < kept[k])
  }

  /** The kept frames are a subsequence of the source, in order. */
  lemma {:induction false} KeptInOrder(n: nat, target: real, source: real)
    requires source > 0.0
    ensures Increasing(Kept(n, target, source), n)
  {
    if n == 0 {
    } else {
      KeptInOrder(n - 1, target, source);
    }
  }

  /** Exactly the frames that open a bucket are kept. */
  lemma {:induction false} KeptIff(n: nat, target: real, source: real, i: nat)
    requires source > 0.0
    ensures i in Kept(n, target, source) <==> i < n && OpensBucket(i, target, source)
  {
    if n == 0 {
    } else {
      KeptIff(n - 1, target, source, i);
    }
  }

  /** The first frame at or before `i` in the bucket of `i`. */
  lemma {:induction false} Opener(i: nat, target: real, source: real) returns (first: nat)
    requires target > 0.0 && source > 0.0
    ensures first <= i && OpensBucket(first, target, source)
    ensures Bucket(first, target, source) == Bucket(i, target, source)
    ensures forall j :: 0 <= j < first ==> Bucket(j, target, source) != Bucket(i, target, source)
  {
    if OpensBucket(i, target, source) {
      first := i;
      forall j | 0 <= j < i ensures Bucket(j, target, source) != Bucket(i, target, source) {
        BucketGrows(j, i - 1, target, source);
        BucketGrows(i - 1, i, target, source);
      }
    } else {
      first := Opener(i - 1, target, source);
    }
  }

  /** Every bucket that some frame reaches keeps exactly one frame, the first one that reaches it. */
  lemma OneFramePerBucket(n: nat, target: real, source: real, i: nat) returns (first: nat)
    requires target > 0.0 && source > 0.0 && i < n
    ensures forall j: nat :: j in Kept(n, target, source) && Bucket(j, target, source) == Bucket(i, target, source) <==> j == first
    ensures forall j :: 0 <= j < first ==> Bucket(j, target, source) < Bucket(i, target, source)
  {
    first := Opener(i, target, source);
    forall j: nat
      ensures j in Kept(n, target, source) && Bucket(j, target, source) == Bucket(i, target, source) <==> j == first
    {
      KeptIff(n, target, source, j);
      if j > first {
        BucketGrows(first, j - 1, target, source);
        BucketGrows(j - 1, j, target, source);
      }
    }
    forall j | 0 <= j < first ensures Bucket(j, target, source) < Bucket(i, target, source) {
      BucketGrows(j, i, target, source);
    }
  }

  /** The exact number of frames kept, for every pair of rates. */
  lemma KeptCount(n: nat, target: real, source: real)
    requires target > 0.0 && source > 0.0 && n >= 1
    ensures var reached := ((n - 1) as real * target / source).Floor + 1;
            |Kept(n, target, source)| == if reached < n then reached else n
  {
    CountKept(n, target, source);
  }

  lemma {:induction false} CountKept(n: nat, target: real, source: real)
    requires target > 0.0 && source > 0.0 && n >= 1
    ensures var reached := Bucket(n - 1, target, source) + 1;
            |Kept(n, target, source)| == if reached < n then reached else n
  {
    if n == 1 {
      Start(target, source);
    } else {
      CountKept(n - 1, target, source);
      BucketBounds(n - 1, target, source);
      BucketBounds(n - 2, target, source);
      BucketStep(n - 2, target, source);
      BucketGrows(n - 2, n - 1, target, source);
      CountStep(n - 1, target, source);
    }
  }

  lemma Start(target: real, source: real)
    requires target > 0.0 && source > 0.0
    ensures Kept(1, target, source) == [0] && Bucket(0, target, source) == 0
  {
    assert Kept(0, target, source) == [];
    BucketZero(target, source);
  }

  lemma CountStep(n: nat, target: real, source: real)
    requires source > 0.0
    ensures |Kept(n + 1, target, source)| == |Kept(n, target, source)| + if OpensBucket(n, target, source) then 1 else 0
  {
  }

  /** A slower target keeps its share of the frames to within one frame. */
  lemma WithinOneFrame(n: nat, target: real, source: real)
    requires 0.0 < target <= source && n >= 1
    ensures var share := n as real * target / source;
            share - 1.0 < |Kept(n, target, source)| as real < share + 1.0
  {
    SlowCount(n, target, source);
    var x, r := LastStamp(n, target, source);
    FloorWithin(x, r, Stamp(n, target, source), |Kept(n, target, source)|);
  }

  /** The share of `n` frames is the time of the last one and one more ratio. */
  lemma LastStamp(n: nat, target: real, source: real) returns (x: real, r: real)
    requires 0.0 < target <= source && n >= 1
    ensures Bucket(n - 1, target, source) == x.Floor && Stamp(n, target, source) == x + r && 0.0 < r <= 1.0
  {
    x, r := Stamp(n - 1, target, source), Ratio(target, source);
    StampStep(n - 1, target, source);
    RatioBounds(target, source);
  }

  lemma SlowCount(n: nat, target: real, source: real)
    requires 0.0 < target <= source && n >= 1
    ensures |Kept(n, target, source)| == Bucket(n - 1, target, source) + 1
  {
    CountKept(n, target, source);
    BucketBounds(n - 1, target, source);
  }

  lemma StampStep(i: nat, target: real, source: real)
    requires source > 0.0
    ensures Stamp(i + 1, target, source) == Stamp(i, target, source) + Ratio(target, source)
  {
    StampIs(i, target, source);
    StampIs(i + 1, target, source);
    TimesStep(i, Ratio(target, source));
  }

  lemma FloorWithin(x: real, r: real, share: real, count: nat)
    requires 0.0 < r <= 1.0 && count == x.Floor + 1 && share == x + r
    ensures share - 1.0 < count as real < share + 1.0
  {
  }
}
