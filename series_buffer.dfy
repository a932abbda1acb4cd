/** The chart series kept per transport: points (probe id, round-trip time)
    pruned from the head once their id falls too far behind the probe
    counter, and the x-axis range that follows the counter. */
module SeriesBuffer {
  import opened JsNumbers

  /** Number of probes the x-axis shows. */
  const MAX_SAMPLES := 100

  /** How far behind the visible range a point may still be kept. */
  const PRUNE_LAG := 10

  /** One chart point: probe id `x` (NaN when a string id does not parse)
      and round-trip time `y`. */
  datatype Point = Point(x: Number, y: int)

  /** Points whose id is below this are pruned from the head. */
  function LimitId(pingCounter: int): int {
    pingCounter - MAX_SAMPLES - PRUNE_LAG
  }

  /** The number of stale points at the head of the series: the ids below
      `limitId`, counted up to the first one that is not. */
  function StaleCount(data: seq<Point>, limitId: int): (n: nat)
    ensures n <= |data|
    ensures forall i :: 0 <= i < n ==> data[i].x.Below(limitId)
    ensures n < |data| ==> !data[n].x.Below(limitId)
  {
    if data != [] && data[0].x.Below(limitId) then
      var n := 1 + StaleCount(data[1..], limitId);
      assert forall i :: 1 <= i < n ==> data[i] == data[1..][i - 1];
      n
    else 0
  }

  /** The series after pruning: points are removed from the head only, and
      only while the head's id is below `limitId`. */
  function DropStaleHead(data: seq<Point>, limitId: int): (r: seq<Point>)
    ensures |r| <= |data| && r == data[|data| - |r|..]
    ensures forall i :: 0 <= i < |data| - |r| ==> data[i].x.Below(limitId)
    ensures r == [] || !r[0].x.Below(limitId)
  {
    data[StaleCount(data, limitId)..]
  }

  /** The pruning loop: `shift()` while the head is stale. */
  method ShiftStale(data: seq<Point>, limitId: int) returns (kept: seq<Point>)
    ensures kept == DropStaleHead(data, limitId)
  {
    kept := data;
    while |kept| > 0 && kept[0].x.Below(limitId)
      invariant |kept| <= |data| && kept == data[|data| - |kept|..]
      invariant |data| - |kept| <= StaleCount(data, limitId)
      decreases |kept|
    {
      assert kept[0] == data[|data| - |kept|];
      kept := kept[1..];
    }
  }

  /** Pruning looks at the head only: a fresh (or NaN) head keeps everything
      behind it, stale or not. */
  lemma FreshHeadKeepsAll(data: seq<Point>, limitId: int)
    requires data != [] && !data[0].x.Below(limitId)
    ensures DropStaleHead(data, limitId) == data
  {
    assert StaleCount(data, limitId) == 0;
  }

  /** Ids in non-decreasing order, none NaN: what a transport that delivers
      replies in probe order produces. */
  predicate InIdOrder(data: seq<Point>) {
    && (forall i :: 0 <= i < |data| ==> data[i].x.Finite?)
    && (forall i, j :: 0 <= i < j < |data| ==> data[i].x.value <= data[j].x.value)
  }

  /** When ids arrive in order, pruning the head leaves no stale point at all. */
  lemma OrderedSeriesHasNoStalePoint(data: seq<Point>, limitId: int)
    requires InIdOrder(data)
    ensures forall i :: 0 <= i < |DropStaleHead(data, limitId)| ==>
      DropStaleHead(data, limitId)[i].x.value >= limitId
  {
    var r := DropStaleHead(data, limitId);
    var k := |data| - |r|;
    if r != [] {
      assert r[0] == data[k];
      assert data[k].x.value >= limitId;
      forall i | 0 <= i < |r| ensures r[i].x.value >= limitId {
        assert r[i] == data[k + i];
        if i > 0 {
          assert data[k].x.value <= data[k + i].x.value;
        }
      }
    }
  }

  /** Ids none of which is NaN, each greater than the one before. */
  predicate StrictlyIncreasing(data: seq<Point>) {
    && (forall i :: 0 <= i < |data| ==> data[i].x.Finite?)
    && (forall i :: 0 < i < |data| ==> data[i - 1].x.value < data[i].x.value)
  }

  /** Strictly increasing ids span at least one less than their count. */
  lemma {:induction false} IncreasingSpan(data: seq<Point>)
    requires data != [] && StrictlyIncreasing(data)
    ensures data[|data| - 1].x.value - data[0].x.value >= |data| - 1
  {
    if |data| > 1 {
      var init := data[..|data| - 1];
      assert StrictlyIncreasing(init) by {
        forall i | 0 < i < |init| ensures init[i - 1].x.value < init[i].x.value {
          assert init[i - 1] == data[i - 1] && init[i] == data[i];
        }
      }
      IncreasingSpan(init);
      assert init[|init| - 1] == data[|data| - 2];
    }
  }

  /** With distinct ids in increasing order, none above the probe counter,
      the pruned series holds at most MAX_SAMPLES + PRUNE_LAG + 1 points. */
  lemma OrderedSeriesBounded(data: seq<Point>, pingCounter: int)
    requires StrictlyIncreasing(data)
    requires forall i :: 0 <= i < |data| ==> data[i].x.value <= pingCounter
    ensures |DropStaleHead(data, LimitId(pingCounter))| <= MAX_SAMPLES + PRUNE_LAG + 1
  {
    var limit := LimitId(pingCounter);
    var r := DropStaleHead(data, limit);
    if r != [] {
      var k := |data| - |r|;
      SuffixIncreasing(data, k);
      assert r[|r| - 1] == data[|data| - 1];
      assert !r[0].x.Below(limit);
      BoundedSpan(r, limit, pingCounter);
    }
  }

  /** Every suffix of a strictly increasing series is strictly increasing. */
  lemma SuffixIncreasing(data: seq<Point>, k: nat)
    requires StrictlyIncreasing(data) && k <= |data|
    ensures StrictlyIncreasing(data[k..])
  {
    var r := data[k..];
    forall i | 0 < i < |r| ensures r[i - 1].x.value < r[i].x.value {
      assert r[i - 1] == data[k + i - 1] && r[i] == data[k + i];
    }
  }

  /** A strictly increasing series whose ids lie within [lo, hi] has at most
      hi - lo + 1 points. */
  lemma BoundedSpan(r: seq<Point>, lo: int, hi: int)
    requires r != [] && StrictlyIncreasing(r)
    requires r[0].x.value >= lo && r[|r| - 1].x.value <= hi
    ensures |r| <= hi - lo + 1
  {
    IncreasingSpan(r);
  }

  /** The chart's x-axis: unset until the first run, then a range. */
  datatype Axis = Auto | Range(min: int, max: int)

  /** The x-axis range for a probe counter: MAX_SAMPLES wide, never below
      zero, ending at the counter once it has passed MAX_SAMPLES. */
  function AxisFor(pingCounter: nat): (r: Axis)
    ensures r.Range? && r.max - r.min == MAX_SAMPLES
    ensures 0 <= r.min <= pingCounter <= r.max
    ensures pingCounter >= MAX_SAMPLES ==> r.max == pingCounter
    ensures pingCounter <= MAX_SAMPLES ==> r == Range(0, MAX_SAMPLES)
  {
    var lo := pingCounter - MAX_SAMPLES;
    Range(if lo > 0 then lo else 0, if MAX_SAMPLES > pingCounter then MAX_SAMPLES else pingCounter)
  }
}
