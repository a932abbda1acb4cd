/** The client's rolling statistics: the three-second window of recent
    samples, and the mean and median it displays for each transport. */
module RollingStats {
  import opened Wrappers

  /** Width of the statistics window, in milliseconds. */
  const WINDOW_MS := 3000

  /** One reply: arrival time `t` and round-trip time `v`, in milliseconds. */
  datatype Sample = Sample(t: int, v: int)

  /** The window keeps a sample while it arrived strictly after `now - WINDOW_MS`. */
  predicate Recent(e: Sample, now: int) {
    e.t > now - WINDOW_MS
  }

  /** The history filtered to the recent samples, in their original order. */
  function Window(h: seq<Sample>, now: int): (r: seq<Sample>)
    ensures |r| <= |h|
  {
    if h == [] then []
    else if Recent(h[0], now) then [h[0]] + Window(h[1..], now)
    else Window(h[1..], now)
  }

  /** The window holds exactly the recent samples of the history. */
  lemma {:induction false} WindowMembers(h: seq<Sample>, now: int, e: Sample)
    ensures e in Window(h, now) <==> e in h && Recent(e, now)
  {
    if h != [] {
      WindowMembers(h[1..], now, e);
      assert h == [h[0]] + h[1..];
    }
  }

  /** Filtering works piecewise, so it keeps the relative order of samples. */
  lemma {:induction false} WindowConcat(a: seq<Sample>, b: seq<Sample>, now: int)
    ensures Window(a + b, now) == Window(a, now) + Window(b, now)
  {
    if a == [] {
      assert a + b == b;
    } else {
      assert (a + b)[1..] == a[1..] + b;
      WindowConcat(a[1..], b, now);
    }
  }

  /** A sample that has just arrived survives the window and lands at its end. */
  lemma WindowKeepsNewest(h: seq<Sample>, s: Sample, now: int)
    requires s.t == now
    ensures Window(h + [s], now) == Window(h, now) + [s]
  {
    WindowConcat(h, [s], now);
    assert [s][1..] == [];
  }

  /** A later cut of an already cut history is the later cut of the whole
      history: nothing a tick drops is needed by a later tick. */
  lemma {:induction false} WindowOfWindow(h: seq<Sample>, earlier: int, later: int)
    requires earlier <= later
    ensures Window(Window(h, earlier), later) == Window(h, later)
  {
    if h != [] {
      WindowOfWindow(h[1..], earlier, later);
      if Recent(h[0], earlier) {
        var w := Window(h[1..], earlier);
        assert Window(h, earlier) == [h[0]] + w;
        assert ([h[0]] + w)[0] == h[0];
        assert ([h[0]] + w)[1..] == w;
      }
    }
  }

  /** The round-trip times of the samples, in order. */
  function Values(h: seq<Sample>): (r: seq<int>)
    ensures |r| == |h|
    ensures forall i :: 0 <= i < |h| ==> r[i] == h[i].v
  {
    seq(|h|, i requires 0 <= i < |h| => h[i].v)
  }

  /** Left-to-right sum, as `reduce((a, b) => a + b, 0)` computes it. */
  function Sum(s: seq<int>): int {
    if s == [] then 0 else Sum(s[..|s| - 1]) + s[|s| - 1]
  }

  function Average(s: seq<int>): real
    requires |s| > 0
  {
    Sum(s) as real / |s| as real
  }

  lemma {:induction false} SumWithin(s: seq<int>, lo: int, hi: int)
    requires forall i :: 0 <= i < |s| ==> lo <= s[i] <= hi
    ensures lo * |s| <= Sum(s) <= hi * |s|
  {
    if s != [] {
      var n := |s|;
      SumWithin(s[..n - 1], lo, hi);
      assert Sum(s) == Sum(s[..n - 1]) + s[n - 1];
      assert lo * n == lo * (n - 1) + lo;
      assert hi * n == hi * (n - 1) + hi;
    }
  }

  /** The mean lies between any lower and upper bound of the values. */
  lemma AverageWithin(s: seq<int>, lo: int, hi: int)
    requires |s| > 0
    requires forall i :: 0 <= i < |s| ==> lo <= s[i] <= hi
    ensures lo as real <= Average(s) <= hi as real
  {
    SumWithin(s, lo, hi);
    MeanWithin(Sum(s), |s|, lo, hi);
  }

  /** A total within `n` times the bounds, divided by `n`, lies within the
      bounds. */
  lemma MeanWithin(total: int, n: nat, lo: int, hi: int)
    requires n > 0 && lo * n <= total <= hi * n
    ensures lo as real <= total as real / n as real <= hi as real
  {
    var x, m := total as real, n as real;
    assert lo as real * m <= x by {
      assert (lo * n) as real == lo as real * m;
    }
    assert x <= hi as real * m by {
      assert (hi * n) as real == hi as real * m;
    }
    QuotientWithin(x, m, lo as real, hi as real);
  }

  /** The mean is the number whose `|s|` copies sum to the sum of `s`. */
  lemma AverageRestoresSum(s: seq<int>)
    requires |s| > 0
    ensures Average(s) * (|s| as real) == Sum(s) as real
  { }

  /** A quotient by a positive number keeps the bounds its numerator has
      on that many multiples. */
  lemma QuotientWithin(x: real, n: real, lo: real, hi: real)
    requires n > 0.0 && lo * n <= x <= hi * n
    ensures lo <= x / n <= hi
  {
    var q := x / n;
    assert (q - lo) * n == x - lo * n >= 0.0;
    assert (hi - q) * n == hi * n - x >= 0.0;
  }

  predicate Ascending(s: seq<int>) {
    forall i, j :: 0 <= i < j < |s| ==> s[i] <= s[j]
  }

  /** `x` inserted into an ascending sequence at its place. */
  function Insert(x: int, s: seq<int>): (r: seq<int>)
    requires Ascending(s)
    ensures |r| == |s| + 1
    ensures multiset(r) == multiset(s) + multiset{x}
    ensures Ascending(r)
  {
    if s == [] || x <= s[0] then [x] + s
    else
      var rest := Insert(x, s[1..]);
      ConsAscending(s, x, rest);
      [s[0]] + rest
  }

  /** The head of an ascending sequence may go in front of anything built
      from its tail and a larger element. */
  lemma ConsAscending(s: seq<int>, x: int, rest: seq<int>)
    requires Ascending(s) && s != [] && x > s[0]
    requires multiset(rest) == multiset(s[1..]) + multiset{x}
    requires Ascending(rest)
    ensures Ascending([s[0]] + rest)
    ensures multiset([s[0]] + rest) == multiset(s) + multiset{x}
  {
    assert s == [s[0]] + s[1..];
    forall j | 0 <= j < |rest| ensures s[0] <= rest[j] {
      assert rest[j] in multiset(rest);
      if rest[j] != x {
        assert rest[j] in multiset(s[1..]);
      }
    }
    var r := [s[0]] + rest;
    forall i, j | 0 <= i < j < |r| ensures r[i] <= r[j] {
      if i > 0 {
        assert r[i] == rest[i - 1] && r[j] == rest[j - 1];
      }
    }
  }

  /** The sorted copy `[...arr].sort((a, b) => a - b)`: ascending and a
      permutation of the input, which itself is left as it is. */
  function SortAscending(s: seq<int>): (r: seq<int>)
    ensures |r| == |s|
    ensures Ascending(r) && multiset(r) == multiset(s)
  {
    if s == [] then []
    else
      assert s == s[..|s| - 1] + [s[|s| - 1]];
      Insert(s[|s| - 1], SortAscending(s[..|s| - 1]))
  }

  /** The head of an ascending sequence is its least element. */
  lemma HeadIsLeast(a: seq<int>, y: int)
    requires Ascending(a) && y in multiset(a)
    ensures a != [] && a[0] <= y
  {
    var j :| 0 <= j < |a| && a[j] == y;
  }

  lemma TailAscending(a: seq<int>)
    requires Ascending(a) && a != []
    ensures Ascending(a[1..])
    ensures multiset(a[1..]) == multiset(a) - multiset{a[0]}
  {
    assert a == [a[0]] + a[1..];
  }

  lemma HeadsEqual(a: seq<int>, b: seq<int>)
    requires Ascending(a) && Ascending(b) && multiset(a) == multiset(b) && a != []
    ensures b != [] && a[0] == b[0]
  {
    assert a[0] in multiset(a);
    HeadIsLeast(b, a[0]);
    assert b[0] in multiset(b);
    HeadIsLeast(a, b[0]);
  }

  /** There is only one ascending arrangement of a multiset of numbers, so
      the median does not depend on the sorting algorithm. */
  lemma {:induction false} AscendingPermutationUnique(a: seq<int>, b: seq<int>)
    requires Ascending(a) && Ascending(b) && multiset(a) == multiset(b)
    ensures a == b
  {
    if a == [] {
      assert |b| == |multiset(b)| == 0;
    } else {
      HeadsEqual(a, b);
      TailAscending(a);
      TailAscending(b);
      AscendingPermutationUnique(a[1..], b[1..]);
      assert a == [a[0]] + a[1..];
    }
  }

  /** Median of the sorted copy: the middle element for an odd count, the
      mean of the two middle elements for an even count. */
  function Median(s: seq<int>): real
    requires |s| > 0
  {
    Middle(SortAscending(s))
  }

  /** The middle element, or the mean of the two middle elements. */
  function Middle(sorted: seq<int>): (r: real)
    requires |sorted| > 0
    ensures 2.0 * r == (sorted[(|sorted| - 1) / 2] + sorted[|sorted| / 2]) as real
  {
    var mid := |sorted| / 2;
    if |sorted| % 2 != 0 then sorted[mid] as real
    else (sorted[mid - 1] + sorted[mid]) as real / 2.0
  }

  /** Reordering the input does not change the median. */
  lemma MedianOfPermutation(s: seq<int>, t: seq<int>)
    requires |s| > 0 && multiset(s) == multiset(t)
    ensures |t| > 0 && Median(s) == Median(t)
  {
    assert |s| == |multiset(s)| == |multiset(t)| == |t|;
    AscendingPermutationUnique(SortAscending(s), SortAscending(t));
  }

  /** How many elements of `s` satisfy `p`. */
  function Count(s: seq<int>, p: int -> bool): nat {
    if s == [] then 0
    else Count(s[..|s| - 1], p) + (if p(s[|s| - 1]) then 1 else 0)
  }

  lemma {:induction false} CountConcat(a: seq<int>, b: seq<int>, p: int -> bool)
    ensures Count(a + b, p) == Count(a, p) + Count(b, p)
  {
    if b != [] {
      assert (a + b)[..|a + b| - 1] == a + b[..|b| - 1];
      CountConcat(a, b[..|b| - 1], p);
    } else {
      assert a + b == a;
    }
  }

  lemma {:induction false} CountPermutation(a: seq<int>, b: seq<int>, p: int -> bool)
    requires multiset(a) == multiset(b)
    ensures Count(a, p) == Count(b, p)
  {
    if a != [] {
      var x := a[|a| - 1];
      assert x in multiset(b);
      var k :| 0 <= k < |b| && b[k] == x;
      var rest := b[..k] + b[k + 1..];
      assert b == b[..k] + [x] + b[k + 1..];
      assert a == a[..|a| - 1] + [x];
      assert multiset(b) == multiset(b[..k]) + multiset{x} + multiset(b[k + 1..]);
      assert multiset(rest) == multiset(b[..k]) + multiset(b[k + 1..]);
      assert multiset(a) == multiset(a[..|a| - 1]) + multiset{x};
      assert multiset(rest) == multiset(b) - multiset{x};
      assert multiset(a[..|a| - 1]) == multiset(a) - multiset{x};
      CountPermutation(a[..|a| - 1], rest, p);
      CountConcat(b[..k] + [x], b[k + 1..], p);
      CountConcat(b[..k], [x], p);
      CountConcat(b[..k], b[k + 1..], p);
      assert [x][..0] == [];
    }
  }

  lemma {:induction false} CountAll(s: seq<int>, p: int -> bool)
    requires forall i :: 0 <= i < |s| ==> p(s[i])
    ensures Count(s, p) == |s|
  {
    if s != [] {
      CountAll(s[..|s| - 1], p);
    }
  }

  /** When every element outside `s[lo..hi]` is ignored, the count is at
      least that of the slice. */
  lemma CountSlice(s: seq<int>, lo: nat, hi: nat, p: int -> bool)
    requires lo <= hi <= |s|
    requires forall i :: lo <= i < hi ==> p(s[i])
    ensures Count(s, p) >= hi - lo
  {
    assert s == s[..lo] + s[lo..hi] + s[hi..];
    CountConcat(s[..lo] + s[lo..hi], s[hi..], p);
    CountConcat(s[..lo], s[lo..hi], p);
    CountAll(s[lo..hi], p);
  }

  /** The tests "at most m" and "at least m" on a value. */
  function AtMost(m: real): int -> bool {
    x => x as real <= m
  }

  function AtLeast(m: real): int -> bool {
    x => x as real >= m
  }

  /** In an ascending sequence, everything up to an element at most `m` is
      at most `m`. */
  lemma AscendingPrefixAtMost(r: seq<int>, k: nat, m: real)
    requires Ascending(r) && 0 < k <= |r| && r[k - 1] as real <= m
    ensures Count(r, AtMost(m)) >= k
  {
    forall i | 0 <= i < k ensures AtMost(m)(r[i]) {
      assert r[i] <= r[k - 1];
    }
    CountSlice(r, 0, k, AtMost(m));
  }

  /** In an ascending sequence, everything from an element at least `m` on
      is at least `m`. */
  lemma AscendingSuffixAtLeast(r: seq<int>, k: nat, m: real)
    requires Ascending(r) && k < |r| && r[k] as real >= m
    ensures Count(r, AtLeast(m)) >= |r| - k
  {
    forall i | k <= i < |r| ensures AtLeast(m)(r[i]) {
      assert r[k] <= r[i];
    }
    CountSlice(r, k, |r|, AtLeast(m));
  }

  /** In an ascending sequence, at least half of the elements are at most
      the middle and at least half are at least the middle. */
  lemma MiddleSplitsAscending(sorted: seq<int>)
    requires |sorted| > 0 && Ascending(sorted)
    ensures 2 * Count(sorted, AtMost(Middle(sorted))) >= |sorted|
    ensures 2 * Count(sorted, AtLeast(Middle(sorted))) >= |sorted|
  {
    var m := Middle(sorted);
    var n := |sorted|;
    var mid := n / 2;
    if n % 2 != 0 {
      AscendingPrefixAtMost(sorted, mid + 1, m);
      AscendingSuffixAtLeast(sorted, mid, m);
    } else {
      assert sorted[mid - 1] <= sorted[mid];
      AscendingPrefixAtMost(sorted, mid, m);
      AscendingSuffixAtLeast(sorted, mid, m);
    }
  }

  /** The median is a textbook median: at least half of the values are at
      most it, and at least half are at least it. */
  lemma MedianSplitsValues(s: seq<int>)
    requires |s| > 0
    ensures 2 * Count(s, AtMost(Median(s))) >= |s|
    ensures 2 * Count(s, AtLeast(Median(s))) >= |s|
  {
    var sorted := SortAscending(s);
    var m := Middle(sorted);
    CountPermutation(s, sorted, AtMost(m));
    CountPermutation(s, sorted, AtLeast(m));
    MiddleSplitsAscending(sorted);
  }

  /** The median of values already in ascending order is their middle. */
  lemma MedianOfAscending(s: seq<int>)
    requires |s| > 0 && Ascending(s)
    ensures Median(s) == Middle(s)
  {
    AscendingPermutationUnique(SortAscending(s), s);
  }

  /** The mean of three values is their sum over three ([10, 20, 30] gives 20). */
  lemma AverageOfThree(a: int, b: int, c: int)
    ensures Average([a, b, c]) == (a + b + c) as real / 3.0
  {
    assert [a][..0] == [] && [a, b][..1] == [a] && [a, b, c][..2] == [a, b];
    assert Sum([a]) == a;
    assert Sum([a, b]) == a + b;
  }

  /** The mean of four values is their sum over four ([10, 20, 30, 40] gives 25). */
  lemma AverageOfFour(a: int, b: int, c: int, d: int)
    ensures Average([a, b, c, d]) == (a + b + c + d) as real / 4.0
  {
    assert [a][..0] == [] && [a, b][..1] == [a] && [a, b, c][..2] == [a, b];
    assert [a, b, c, d][..3] == [a, b, c];
    assert Sum([a]) == a;
    assert Sum([a, b]) == a + b;
    assert Sum([a, b, c]) == a + b + c;
  }

  /** Any arrangement of ascending values has their middle as its median. */
  lemma MedianOfRearranged(s: seq<int>, t: seq<int>)
    requires |t| > 0 && Ascending(t) && multiset(s) == multiset(t)
    ensures |s| > 0 && Median(s) == Middle(t)
  {
    MedianOfPermutation(t, s);
    MedianOfAscending(t);
  }

  /** Three values whose first is the largest: the median is the last one,
      the middle value ([30, 10, 20] gives 20). */
  lemma MedianOfThree(s: seq<int>)
    requires |s| == 3 && s[1] <= s[2] <= s[0]
    ensures Median(s) == s[2] as real
  {
    var sorted := s[1..] + s[..1];
    assert multiset(sorted) == multiset(s) by {
      assert s == s[..1] + s[1..];
    }
    AscendingByNeighbours(sorted);
    MedianOfRearranged(s, sorted);
  }

  /** Four ascending values: the median is the mean of the two middle ones
      ([10, 20, 30, 40] gives 25). */
  lemma MedianOfFour(s: seq<int>)
    requires |s| == 4 && s[0] <= s[1] <= s[2] <= s[3]
    ensures Median(s) == (s[1] + s[2]) as real / 2.0
  {
    AscendingByNeighbours(s);
    MedianOfAscending(s);
  }

  /** A sequence each of whose elements is at least the one before is
      ascending. */
  lemma {:induction false} AscendingByNeighbours(s: seq<int>)
    requires forall i :: 0 < i < |s| ==> s[i - 1] <= s[i]
    ensures Ascending(s)
  {
    if |s| > 1 {
      var init := s[..|s| - 1];
      AscendingByNeighbours(init);
      forall i, j | 0 <= i < j < |s| ensures s[i] <= s[j] {
        if j < |s| - 1 {
          assert s[i] == init[i] && s[j] == init[j];
        } else if i < j - 1 {
          assert s[i] == init[i] && s[j - 1] == init[j - 1];
        }
      }
    }
  }

  /** What a transport's mean and median elements show: nothing yet, or the
      last value written. */
  datatype Shown = Shown(average: Option<real>, median: Option<real>)

  /** `updateStats`: an empty value list leaves the display as it was;
      otherwise it shows the mean and the median of the values. */
  function UpdateStats(shown: Shown, values: seq<int>): (r: Shown)
    ensures values == [] ==> r == shown
    ensures values != [] ==> r.average == Some(Average(values)) && r.median == Some(Median(values))
  {
    if values == [] then shown
    else Shown(Some(Average(values)), Some(Median(values)))
  }
}
