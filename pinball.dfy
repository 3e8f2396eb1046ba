/**
 * The integer core of the pinball task: x buckets are zeroed, y balls
 * each fall through x - 1 levels of pegs (one random left/right step of
 * half a bucket per level) and land in a bucket, the fullest bucket is
 * found, and each bucket's histogram bar is scaled to 50 stars relative
 * to it.
 *
 * The random draws `rand() / RAND_MAX > 0.5` are a parameter: `walks[i]`
 * holds the draws of ball i, one per level, `true` meaning a step to the
 * right.  The ball's position, always a multiple of one half, is kept in
 * half-units so that the walk is exact integer arithmetic.
 */
module Pinball {

  /** The number of peg levels a ball falls through with x buckets (`j < x - 1`). */
  function Levels(x: int): nat
  {
    if x >= 1 then x - 1 else 0
  }

  /** The number of rightward steps in a walk. */
  function RightSteps(walk: seq<bool>): (r: nat)
    ensures r <= |walk|
  {
    if walk == [] then 0
    else RightSteps(walk[..|walk| - 1]) + (if walk[|walk| - 1] then 1 else 0)
  }

  /** C's `(int)` cast of t / 2.0: division truncated toward zero. */
  function TruncHalf(t: int): int
  {
    if t >= 0 then t / 2 else -((-t) / 2)
  }

  /** Every ball has one draw per level. */
  ghost predicate Fits(x: int, walks: seq<seq<bool>>)
  {
    forall i :: 0 <= i < |walks| ==> |walks[i]| == Levels(x)
  }

  /** The number of walks whose ball lands in bucket k. */
  function Hits(walks: seq<seq<bool>>, k: int): (n: nat)
    ensures n <= |walks|
  {
    if walks == [] then 0
    else Hits(walks[..|walks| - 1], k) + (if RightSteps(walks[|walks| - 1]) == k then 1 else 0)
  }

  /** x empty buckets. */
  function Zeros(x: nat): (s: seq<int>)
  {
    seq(x, _ => 0)
  }

  /** The bucket counts after dropping the balls of `walks`, in order, into x empty buckets. */
  function Tally(x: int, walks: seq<seq<bool>>): (s: seq<int>)
    requires x >= 1 && Fits(x, walks)
    ensures |s| == x
  {
    if walks == [] then Zeros(x)
    else
      var k := RightSteps(walks[|walks| - 1]);
      var s := Tally(x, walks[..|walks| - 1]);
      s[k := s[k] + 1]
  }

  /** The sum of all counts. */
  function Sum(s: seq<int>): int
  {
    if s == [] then 0 else s[0] + Sum(s[1..])
  }

  /**
   * One ball's fall (test.c:298-312): starting at x / 2.0 + 0.5, x - 1
   * steps of +-0.5, landing in bucket `(int)pos - 1`.  With x >= 1 the
   * bucket is the number of right steps, inside [0, x - 1]; with x <= 0
   * the walk takes no step and the index is negative, out of the array.
   */
  method Walk(x: int, walk: seq<bool>) returns (index: int)
    requires |walk| == Levels(x)
    ensures x >= 1 ==> index == RightSteps(walk) && 0 <= index < x
    ensures x <= 0 ==> index == TruncHalf(x + 1) - 1 && index < 0
  {
    var j := 0;
    var twicePos := x + 1;  // twice the position x / 2.0 + 0.5
    while j < x - 1
      invariant 0 <= j <= Levels(x)
      invariant twicePos == x + 1 + 2 * RightSteps(walk[..j]) - j
    {
      if walk[j] {
        twicePos := twicePos + 1;
      } else {
        twicePos := twicePos - 1;
      }
      assert walk[..j + 1][..j] == walk[..j];
      j := j + 1;
    }
    assert walk[..j] == walk;
    index := TruncHalf(twicePos) - 1;
  }

  /** Allocates the x buckets and zeroes them (test.c:284-289). */
  method InitBuckets(x: int) returns (buckets: array<int>)
    requires x >= 1
    ensures fresh(buckets) && buckets.Length == x
    ensures buckets[..] == Zeros(x)
  {
    buckets := new int[x];
    var i := 0;
    while i < x
      invariant 0 <= i <= x
      invariant forall k :: 0 <= k < i ==> buckets[k] == 0
    {
      buckets[i] := 0;
      i := i + 1;
    }
  }

  /**
   * Drops one ball (test.c:298-312): the bucket it lands in gains exactly
   * one ball and every other bucket keeps its count.
   */
  method DropBall(buckets: array<int>, x: int, walk: seq<bool>)
    requires x >= 1 && buckets.Length == x && |walk| == Levels(x)
    modifies buckets
    ensures buckets[..] == old(buckets[..])[RightSteps(walk) := old(buckets[RightSteps(walk)]) + 1]
  {
    var index := Walk(x, walk);
    buckets[index] := buckets[index] + 1;
  }

  /**
   * Finds the fullest bucket (test.c:317-325): the first index whose count
   * is at least every other count.
   */
  method MaxBucket(buckets: array<int>) returns (max: int)
    requires buckets.Length >= 1
    ensures 0 <= max < buckets.Length
    ensures forall k :: 0 <= k < buckets.Length ==> buckets[k] <= buckets[max]
    ensures forall k :: 0 <= k < max ==> buckets[k] < buckets[max]
  {
    var i := 1;
    max := 0;
    while i < buckets.Length
      invariant 1 <= i <= buckets.Length
      invariant 0 <= max < i
      invariant forall k :: 0 <= k < i ==> buckets[k] <= buckets[max]
      invariant forall k :: 0 <= k < max ==> buckets[k] < buckets[max]
    {
      if buckets[i] > buckets[max] {
        max := i;
      }
      i := i + 1;
    }
  }

  /**
   * The bar length of a bucket holding `count` balls when the fullest holds
   * `top` (test.c:332): `(count / top) * 50` truncated, i.e. the largest n
   * with n * top <= count * 50.  The fullest bucket gets exactly 50 stars
   * and no other bucket does.  When every bucket is empty the bar is empty.
   */
  function StarCount(count: int, top: int): (n: int)
    requires 0 <= count <= top
    ensures 0 <= n <= 50
    ensures top > 0 ==> n * top <= count * 50 < (n + 1) * top
    ensures top > 0 ==> (n == 50 <==> count == top)
    ensures top == 0 ==> n == 0
  {
    if top > 0 then
      StarCountBounds(count, top);
      count * 50 / top
    else 0
  }

  /** The facts about `count * 50 / top` that StarCount promises. */
  lemma StarCountBounds(count: int, top: int)
    requires 0 <= count <= top && top > 0
    ensures var n := count * 50 / top;
      0 <= n <= 50 && n * top <= count * 50 < (n + 1) * top && (n == 50 <==> count == top)
  {
  }

  /** Cancelling a positive factor keeps a strict comparison. */
  lemma MulCancel(a: int, b: int, c: int)
    requires c > 0
    ensures a * c < b * c ==> a < b
  {
    if a >= b {
      var d := a - b;
      assert a * c == b * c + d * c;
    }
  }

  /** Bars grow with the count: a fuller bucket never gets fewer stars. */
  lemma StarCountMonotone(c1: int, c2: int, top: int)
    requires 0 <= c1 <= c2 <= top
    ensures StarCount(c1, top) <= StarCount(c2, top)
  {
    if top > 0 {
      MulCancel(StarCount(c1, top), StarCount(c2, top) + 1, top);
    }
  }

  /**
   * The bar length of every bucket, in bucket order (test.c:327-340),
   * scaled against the fullest bucket `max`.
   */
  method Bars(buckets: array<int>, max: int) returns (stars: seq<int>)
    requires 0 <= max < buckets.Length
    requires forall k :: 0 <= k < buckets.Length ==> 0 <= buckets[k] <= buckets[max]
    ensures |stars| == buckets.Length
    ensures forall k :: 0 <= k < buckets.Length ==> stars[k] == StarCount(buckets[k], buckets[max])
  {
    stars := [];
    var i := 0;
    while i < buckets.Length
      invariant 0 <= i <= buckets.Length
      invariant |stars| == i
      invariant forall k :: 0 <= k < i ==> stars[k] == StarCount(buckets[k], buckets[max])
    {
      stars := stars + [StarCount(buckets[i], buckets[max])];
      i := i + 1;
    }
  }

  /**
   * The whole pinball simulation (test.c:270-343) without its text output:
   * the final bucket counts, the fullest bucket and the bar lengths.
   */
  method Simulate(x: int, y: int, walks: seq<seq<bool>>) returns (counts: seq<int>, max: int, stars: seq<int>)
    requires x >= 1
    requires |walks| == (if y > 0 then y else 0)
    requires Fits(x, walks)
    ensures counts == Tally(x, walks)
    ensures |counts| == x
    ensures forall k :: 0 <= k < x ==> counts[k] == Hits(walks, k)
    ensures Sum(counts) == |walks|
    ensures 0 <= max < x
    ensures forall k :: 0 <= k < x ==> counts[k] <= counts[max]
    ensures forall k :: 0 <= k < max ==> counts[k] < counts[max]
    ensures |stars| == x
    ensures forall k :: 0 <= k < x ==> 0 <= counts[k] && stars[k] == StarCount(counts[k], counts[max])
    ensures forall k :: 0 <= k < x ==> 0 <= stars[k] <= 50 && (stars[k] == 50 <==> counts[k] == counts[max] > 0)
    ensures y > 0 ==> stars[max] == 50
  {
    var buckets := InitBuckets(x);
    var i := 0;
    while i < y
      invariant 0 <= i <= |walks|
      invariant buckets.Length == x
      invariant buckets[..] == Tally(x, walks[..i])
    {
      DropBall(buckets, x, walks[i]);
      assert walks[..i + 1][..i] == walks[..i];
      i := i + 1;
    }
    assert walks[..i] == walks;
    counts := buckets[..];
    TallyHits(x, walks);
    TallySum(x, walks);
    max := MaxBucket(buckets);
    stars := Bars(buckets, max);
    if y > 0 {
      FullestNotEmpty(counts, max);
    }
  }

  // Lemmas about the bucket counts

  /** Each bucket of the tally holds exactly the balls whose walk lands there. */
  lemma {:induction false} TallyHits(x: int, walks: seq<seq<bool>>)
    requires x >= 1 && Fits(x, walks)
    ensures forall k :: 0 <= k < x ==> Tally(x, walks)[k] == Hits(walks, k)
  {
    if walks != [] {
      var init := walks[..|walks| - 1];
      assert Fits(x, init) by {
        forall i | 0 <= i < |init| ensures |init[i]| == Levels(x) {
          assert init[i] == walks[i];
        }
      }
      TallyHits(x, init);
    }
  }

  /** Bumping one count raises the sum by one. */
  lemma {:induction false} SumBump(s: seq<int>, k: int)
    requires 0 <= k < |s|
    ensures Sum(s[k := s[k] + 1]) == Sum(s) + 1
  {
    var t := s[k := s[k] + 1];
    if k == 0 {
      assert t[1..] == s[1..];
    } else {
      assert t[1..] == s[1..][k - 1 := s[k] + 1];
      SumBump(s[1..], k - 1);
    }
  }

  /** Empty buckets sum to zero. */
  lemma {:induction false} SumZeros(x: nat)
    ensures Sum(Zeros(x)) == 0
  {
    if x > 0 {
      assert Zeros(x)[1..] == Zeros(x - 1);
      SumZeros(x - 1);
    }
  }

  /** No ball is lost or duplicated: the counts add up to the number of balls dropped. */
  lemma {:induction false} TallySum(x: int, walks: seq<seq<bool>>)
    requires x >= 1 && Fits(x, walks)
    ensures Sum(Tally(x, walks)) == |walks|
  {
    if walks == [] {
      SumZeros(x);
    } else {
      var init := walks[..|walks| - 1];
      assert Fits(x, init) by {
        forall i | 0 <= i < |init| ensures |init[i]| == Levels(x) {
          assert init[i] == walks[i];
        }
      }
      TallySum(x, init);
      SumBump(Tally(x, init), RightSteps(walks[|walks| - 1]));
    }
  }

  /** A sum is at most the length times the largest element. */
  lemma {:induction false} SumBound(s: seq<int>, m: int)
    requires forall k :: 0 <= k < |s| ==> s[k] <= m
    ensures Sum(s) <= |s| * m
  {
    if s != [] {
      SumBound(s[1..], m);
    }
  }

  /** When the counts add up to more than zero, the fullest bucket holds a ball. */
  lemma FullestNotEmpty(s: seq<int>, max: int)
    requires 0 <= max < |s| && Sum(s) > 0
    requires forall k :: 0 <= k < |s| ==> s[k] <= s[max]
    ensures s[max] > 0
  {
    SumBound(s, s[max]);
  }
}
