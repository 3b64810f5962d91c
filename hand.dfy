/**
 * Facts about a hand of dice that both scorers rely on: how often a face occurs (what
 * lodash's `countBy` tabulates), the sum of the dice, the distinct values in ascending
 * order and runs of consecutive values (what `isStraight` looks for).
 */
module Hand {
  import opened Categories

  /** The number of dice showing `f`: the entry for `f` of lodash's `countBy` table. */
  function Count(d: seq<int>, f: int): (n: nat)
  {
    multiset(d)[f]
  }

  /** The sum of the dice. */
  function Sum(d: seq<int>): (s: int)
  {
    if |d| == 0 then 0 else d[0] + Sum(d[1..])
  }

  /** Some face shows exactly `n` times; only faces that occur have an entry in the count table. */
  predicate SomeCount(d: seq<int>, n: nat)
  {
    exists f {:trigger Count(d, f)} :: f in multiset(d) && Count(d, f) == n
  }

  /** Some face shows at least `n` times. */
  predicate SomeCountAtLeast(d: seq<int>, n: nat)
  {
    exists f {:trigger Count(d, f)} :: f in multiset(d) && Count(d, f) >= n
  }

  /** All dice show the same face. */
  predicate AllSame(d: seq<int>)
  {
    forall i :: 0 <= i < |d| ==> d[i] == d[0]
  }

  /** No face shows more often than there are dice. */
  lemma {:induction false} CountBound(d: seq<int>, f: int)
    ensures Count(d, f) <= |d|
  {
    if |d| > 0 {
      assert d == [d[0]] + d[1..];
      assert multiset(d) == multiset([d[0]]) + multiset(d[1..]);
      CountBound(d[1..], f);
    }
  }

  lemma {:induction false} CountWhole(d: seq<int>, f: int)
    ensures Count(d, f) == |d| <==> forall i :: 0 <= i < |d| ==> d[i] == f
  {
    if |d| > 0 {
      CountWhole(d[1..], f);
      assert d == [d[0]] + d[1..];
      assert multiset(d) == multiset([d[0]]) + multiset(d[1..]);
      CountBound(d[1..], f);
      assert forall i :: 1 <= i < |d| ==> d[i] == d[1..][i - 1];
    }
  }

  /** For a five-dice hand, "some face shows five times" is exactly "all dice match". */
  lemma FiveOfAKindIsAllSame(d: seq<int>)
    requires |d| == 5
    ensures SomeCount(d, 5) <==> AllSame(d)
  {
    if SomeCount(d, 5) {
      var f :| f in d && Count(d, f) == 5;
      CountWhole(d, f);
    }
    if AllSame(d) {
      CountWhole(d, d[0]);
      assert d[0] in d && Count(d, d[0]) == 5;
    }
  }

  /** The sum of n dice lies between n and 6n. */
  lemma {:induction false} SumBounds(d: seq<Face>)
    ensures |d| <= Sum(d) <= 6 * |d|
  {
    if |d| > 0 {
      SumBounds(d[1..]);
    }
  }

  /** Dice that all show the same face sum to that face times their number. */
  lemma {:induction false} SumAllSame(d: seq<int>)
    requires |d| > 0 && AllSame(d)
    ensures Sum(d) == |d| * d[0]
  {
    if |d| > 1 {
      assert AllSame(d[1..]) by {
        assert forall i :: 0 <= i < |d| - 1 ==> d[1..][i] == d[i + 1];
      }
      SumAllSame(d[1..]);
    }
  }

  /** Every value strictly below the next one. */
  predicate StrictlyIncreasing(u: seq<int>)
  {
    forall i, j :: 0 <= i < j < |u| ==> u[i] < u[j]
  }

  /**
   * lodash's `uniq` followed by `sort`: the distinct values of the dice in ascending order (the default
   * string order of `sort` agrees with numeric order on single digits).
   */
  method UniqSort(d: seq<Face>) returns (u: seq<int>)
    ensures forall v :: v in u <==> v in d
    ensures StrictlyIncreasing(u)
  {
    u := [];
    for f := 1 to 7
      invariant forall v :: v in u <==> 1 <= v < f && v in d
      invariant forall i :: 0 <= i < |u| ==> u[i] < f
      invariant StrictlyIncreasing(u)
    {
      if f in d {
        u := u + [f];
      }
    }
  }

  /**
   * The values contain the `size` consecutive integers `s, s+1, ..., s+size-1` for some
   * `s`: a straight of that size, duplicates and order ignored.
   */
  ghost predicate HasRun(values: seq<int>, size: int)
  {
    size >= 1 && exists s :: RunFrom(values, s, size)
  }

  /** The values contain `s, s+1, ..., s+size-1`. */
  ghost predicate RunFrom(values: seq<int>, s: int, size: int)
  {
    forall v :: s <= v < s + size ==> v in values
  }

  /** How long the run of consecutive values ending at position `j` is. */
  function RunEnd(u: seq<int>, j: nat): (n: nat)
    requires j < |u|
  {
    if j == 0 then 1 else if u[j] == u[j - 1] + 1 then RunEnd(u, j - 1) + 1 else 1
  }

  lemma {:induction false} RunEndGrowth(u: seq<int>, i: nat, j: nat)
    requires i <= j < |u|
    ensures RunEnd(u, j) <= RunEnd(u, i) + (j - i)
    decreases j - i
  {
    if i < j {
      RunEndGrowth(u, i, j - 1);
    }
  }

  lemma {:induction false} RunEndShape(u: seq<int>, j: nat, k: nat)
    requires j < |u| && k < RunEnd(u, j)
    ensures k <= j && u[j - k] == u[j] - k
    decreases k
  {
    if k > 0 {
      RunEndShape(u, j - 1, k - 1);
    }
  }

  /** A run of at least `size` ending somewhere is a straight of that size. */
  lemma RunSound(u: seq<int>, j: nat, size: int)
    requires j < |u| && 1 <= size <= RunEnd(u, j)
    ensures HasRun(u, size)
  {
    var s := u[j] - size + 1;
    RunEndShape(u, j, size - 1);
    assert u[j - (size - 1)] == s;
    forall v | s <= v < s + size
      ensures v in u
    {
      RunEndShape(u, j, u[j] - v);
      assert u[j - (u[j] - v)] == v;
    }
    assert RunFrom(u, s, size);
  }

  lemma {:induction false} RunReaches(u: seq<int>, s: int, size: int, k: nat, a: nat)
    requires StrictlyIncreasing(u)
    requires forall v :: s <= v < s + size ==> v in u
    requires k < size && a < |u| && u[a] == s + k
    ensures RunEnd(u, a) >= k + 1
    decreases k
  {
    if k > 0 {
      assert s + k - 1 in u;
      var b :| 0 <= b < |u| && u[b] == s + k - 1;
      assert forall i :: 0 <= i < |u| && u[i] < u[a] ==> i < a;
      assert u[a - 1] < u[a] && u[b] <= u[a - 1];
      assert forall i :: 0 <= i < a - 1 ==> u[i] < u[a - 1];
      RunReaches(u, s, size, k - 1, b);
    }
  }

  /** In an ascending list of distinct values, a straight shows as a long enough run. */
  lemma RunComplete(u: seq<int>, size: int) returns (j: nat)
    requires StrictlyIncreasing(u) && HasRun(u, size)
    ensures j < |u| && RunEnd(u, j) >= size
  {
    var s :| RunFrom(u, s, size);
    assert s + size - 1 in u;
    j :| 0 <= j < |u| && u[j] == s + size - 1;
    RunReaches(u, s, size, size - 1, j);
  }

  /** With every run shorter than `size`, an ascending list of distinct values holds no straight of that size. */
  lemma NoLongRun(u: seq<int>, size: int)
    requires StrictlyIncreasing(u)
    requires forall j :: 0 <= j < |u| ==> RunEnd(u, j) < size
    ensures !HasRun(u, size)
  {
    if HasRun(u, size) {
      var j := RunComplete(u, size);
    }
  }

  /** Fewer distinct values than `size` hold no straight of that size. */
  lemma TooFewValues(u: seq<int>, size: int)
    requires StrictlyIncreasing(u) && |u| < size
    ensures !HasRun(u, size)
  {
    forall j | 0 <= j < |u|
      ensures RunEnd(u, j) < size
    {
      RunEndGrowth(u, 0, j);
    }
    NoLongRun(u, size);
  }

  /** A straight of five contains a straight of four. */
  lemma LargeStraightIsSmall(values: seq<int>)
    ensures HasRun(values, 5) ==> HasRun(values, 4)
  {
    if HasRun(values, 5) {
      var s :| RunFrom(values, s, 5);
      assert RunFrom(values, s, 4);
    }
  }

  /** Whether values form a straight depends only on which values occur. */
  lemma HasRunSameValues(a: seq<int>, b: seq<int>, size: int)
    requires forall v :: v in a <==> v in b
    ensures HasRun(a, size) == HasRun(b, size)
  {
    if HasRun(a, size) {
      var s :| RunFrom(a, s, size);
      assert RunFrom(b, s, size);
    }
    if HasRun(b, size) {
      var s :| RunFrom(b, s, size);
      assert RunFrom(a, s, size);
    }
  }
}
