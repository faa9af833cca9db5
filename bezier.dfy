/** The curve helpers of src/views/RiskAssessment/BowtieEditor.tsx: cubic Bezier evaluation,
    the horizontal control points of a React Flow bezier edge, the arc-length table, the
    distance-to-t lookup, clustered barrier placement and the two-phase closest-t search.

    Coordinates are exact reals. `Math.sqrt` is a parameter `sqrt`; the only fact assumed of it,
    where a lemma needs one, is that it is non-negative on non-negative arguments. */
module Bezier {

  datatype Point = Point(x: real, y: real)

  function Add(p: Point, q: Point): Point { Point(p.x + q.x, p.y + q.y) }
  function Sub(p: Point, q: Point): Point { Point(p.x - q.x, p.y - q.y) }

  const BarrierSpacing: real := 140.0
  /** Half the barrier node's box: its top-left corner plus this is its centre. */
  const CenterOffset: Point := Point(60.0, 55.0)
  /** Handle positions used while dragging. */
  const ThreatHandleOffset: Point := Point(200.0, 50.0)
  const TopEventInOffset: Point := Point(0.0, 100.0)
  const TopEventOutOffset: Point := Point(200.0, 100.0)
  const ConsHandleOffset: Point := Point(0.0, 50.0)
  const Samples: nat := 100

  type Sqrt = real -> real

  ghost predicate NonNegativeSqrt(sqrt: Sqrt) {
    forall v :: v >= 0.0 ==> sqrt(v) >= 0.0
  }

  // --- Curve evaluation ---

  /** `getPointOnBezier`: the Bernstein form of the cubic. */
  function PointOnBezier(p0: Point, p1: Point, p2: Point, p3: Point, t: real): (r: Point)
    ensures t == 0.0 ==> r == p0
    ensures t == 1.0 ==> r == p3
  {
    var u := 1.0 - t;
    var u2 := u * u;
    var u3 := u2 * u;
    var t2 := t * t;
    var t3 := t2 * t;
    Point(u3 * p0.x + 3.0 * u2 * t * p1.x + 3.0 * u * t2 * p2.x + t3 * p3.x,
          u3 * p0.y + 3.0 * u2 * t * p1.y + 3.0 * u * t2 * p2.y + t3 * p3.y)
  }

  datatype Controls = Controls(p1: Point, p2: Point)

  /** `getControlPoints`: both inner control points at the middle x, each at its end's y. */
  function ControlPoints(src: Point, tgt: Point): (r: Controls)
    ensures r.p1.x == r.p2.x && r.p1.x - src.x == tgt.x - r.p2.x
    ensures r.p1.y == src.y && r.p2.y == tgt.y
  {
    var midX := (src.x + tgt.x) / 2.0;
    Controls(Point(midX, src.y), Point(midX, tgt.y))
  }

  /** The edge between `src` and `tgt`, as drawn. */
  datatype Curve = Curve(p0: Point, p1: Point, p2: Point, p3: Point)

  function EdgeCurve(src: Point, tgt: Point): Curve {
    var cp := ControlPoints(src, tgt);
    Curve(src, cp.p1, cp.p2, tgt)
  }

  function At(c: Curve, t: real): Point {
    PointOnBezier(c.p0, c.p1, c.p2, c.p3, t)
  }

  /** Running a cubic backwards is the cubic of the reversed control polygon. */
  lemma BezierReversed(p0: Point, p1: Point, p2: Point, p3: Point, t: real)
    ensures PointOnBezier(p0, p1, p2, p3, t) == PointOnBezier(p3, p2, p1, p0, 1.0 - t)
  {
    var u := 1.0 - t;
    assert 1.0 - u == t;
  }

  /** An edge reversed is the same curve run backwards. */
  lemma EdgeReversed(src: Point, tgt: Point, t: real)
    ensures At(EdgeCurve(src, tgt), t) == At(EdgeCurve(tgt, src), 1.0 - t)
  {
    BezierReversed(src, ControlPoints(src, tgt).p1, ControlPoints(src, tgt).p2, tgt, t);
  }

  /** Halfway along the edge is the midpoint of its ends. */
  lemma EdgeMidpoint(src: Point, tgt: Point)
    ensures At(EdgeCurve(src, tgt), 0.5) == Point((src.x + tgt.x) / 2.0, (src.y + tgt.y) / 2.0)
  {
  }

  // --- Arc-length table ---

  datatype LutEntry = LutEntry(t: real, len: real, x: real, y: real)

  function SquaredDistance(a: Point, b: Point): (r: real)
    ensures r >= 0.0
  {
    (b.x - a.x) * (b.x - a.x) + (b.y - a.y) * (b.y - a.y)
  }

  function SegmentLength(sqrt: Sqrt, a: Point, b: Point): real {
    sqrt(SquaredDistance(a, b))
  }

  function EntryPoint(e: LutEntry): Point { Point(e.x, e.y) }

  /** The table after `i` steps of the sampling loop. */
  function LutPrefix(sqrt: Sqrt, c: Curve, i: nat): (r: seq<LutEntry>)
    ensures |r| == i + 1
    ensures r[0] == LutEntry(0.0, 0.0, c.p0.x, c.p0.y)
  {
    if i == 0 then [LutEntry(0.0, 0.0, c.p0.x, c.p0.y)]
    else
      var prev := LutPrefix(sqrt, c, i - 1);
      var last := prev[|prev| - 1];
      var t := i as real / Samples as real;
      var pt := At(c, t);
      prev + [LutEntry(t, last.len + SegmentLength(sqrt, EntryPoint(last), pt), pt.x, pt.y)]
  }

  /** The whole table: SAMPLES + 1 entries. */
  function BezierLut(sqrt: Sqrt, c: Curve): seq<LutEntry> {
    LutPrefix(sqrt, c, Samples)
  }

  /** `generateBezierLUT`. */
  method GenerateBezierLUT(sqrt: Sqrt, p0: Point, p1: Point, p2: Point, p3: Point)
    returns (lut: seq<LutEntry>, totalLen: real)
    ensures lut == BezierLut(sqrt, Curve(p0, p1, p2, p3))
    ensures totalLen == lut[Samples].len
  {
    ghost var c := Curve(p0, p1, p2, p3);
    lut := [LutEntry(0.0, 0.0, p0.x, p0.y)];
    totalLen := 0.0;
    var prev := p0;
    var i := 1;
    while i <= Samples
      invariant 1 <= i <= Samples + 1
      invariant lut == LutPrefix(sqrt, c, i - 1)
      invariant totalLen == lut[i - 1].len && prev == EntryPoint(lut[i - 1])
    {
      var t := i as real / Samples as real;
      var pt := PointOnBezier(p0, p1, p2, p3, t);
      var d := SegmentLength(sqrt, prev, pt);
      totalLen := totalLen + d;
      lut := lut + [LutEntry(t, totalLen, pt.x, pt.y)];
      prev := pt;
      i := i + 1;
    }
  }

  /** Entry `k` is sample `k`: t = k / SAMPLES, at that point of the curve. */
  lemma {:induction false} LutSamples(sqrt: Sqrt, c: Curve, i: nat, k: nat)
    requires k <= i
    ensures LutPrefix(sqrt, c, i)[k].t == k as real / Samples as real
    ensures EntryPoint(LutPrefix(sqrt, c, i)[k]) == At(c, k as real / Samples as real)
  {
    if k < i {
      LutSamples(sqrt, c, i - 1, k);
      assert LutPrefix(sqrt, c, i)[k] == LutPrefix(sqrt, c, i - 1)[k];
    }
  }

  /** With a non-negative square root the lengths never decrease. */
  lemma {:induction false} LutMonotone(sqrt: Sqrt, c: Curve, i: nat, j: nat, k: nat)
    requires NonNegativeSqrt(sqrt) && j <= k <= i
    ensures LutPrefix(sqrt, c, i)[j].len <= LutPrefix(sqrt, c, i)[k].len
  {
    if k < i {
      LutMonotone(sqrt, c, i - 1, j, k);
      assert LutPrefix(sqrt, c, i)[..i] == LutPrefix(sqrt, c, i - 1);
    } else if j < k {
      LutMonotone(sqrt, c, i - 1, j, k - 1);
      var prev := LutPrefix(sqrt, c, i - 1);
      var last := prev[i - 1];
      var pt := At(c, i as real / Samples as real);
      assert LutPrefix(sqrt, c, i)[i].len == last.len + SegmentLength(sqrt, EntryPoint(last), pt);
      assert LutPrefix(sqrt, c, i)[..i] == prev;
    }
  }

  /** The table of an edge: 101 entries from (t 0, length 0) at the start to t 1 at the end,
      lengths in order. */
  lemma LutShape(sqrt: Sqrt, c: Curve)
    ensures |BezierLut(sqrt, c)| == Samples + 1
    ensures BezierLut(sqrt, c)[0].t == 0.0 && BezierLut(sqrt, c)[0].len == 0.0
    ensures BezierLut(sqrt, c)[Samples].t == 1.0 && EntryPoint(BezierLut(sqrt, c)[Samples]) == c.p3
    ensures NonNegativeSqrt(sqrt) ==> forall j, k :: 0 <= j <= k <= Samples ==>
      BezierLut(sqrt, c)[j].len <= BezierLut(sqrt, c)[k].len
  {
    LutSamples(sqrt, c, Samples, Samples);
    if NonNegativeSqrt(sqrt) {
      forall j, k | 0 <= j <= k <= Samples
        ensures BezierLut(sqrt, c)[j].len <= BezierLut(sqrt, c)[k].len
      {
        LutMonotone(sqrt, c, Samples, j, k);
      }
    }
  }

  // --- Distance to t ---

  /** Entries `i` and `i + 1` enclose the target length. */
  predicate Brackets(lut: seq<LutEntry>, i: nat, target: real)
    requires i + 1 < |lut|
  {
    lut[i].len <= target && lut[i + 1].len >= target
  }

  /** Linear interpolation inside the bracket. Where the bracket has zero length the source
      divides 0 by 0; the model takes the fraction to be 0 there. */
  function Interpolate(lut: seq<LutEntry>, i: nat, target: real): real
    requires i + 1 < |lut|
  {
    var dRange := lut[i + 1].len - lut[i].len;
    var tRange := lut[i + 1].t - lut[i].t;
    var frac := if dRange == 0.0 then 0.0 else (target - lut[i].len) / dRange;
    lut[i].t + frac * tRange
  }

  /** The linear scan, from entry `i` on. */
  function TForDistanceFrom(target: real, lut: seq<LutEntry>, i: nat): real
    decreases |lut| - i
  {
    if i + 1 < |lut| then
      if Brackets(lut, i, target) then Interpolate(lut, i, target)
      else TForDistanceFrom(target, lut, i + 1)
    else 1.0
  }

  function TForDistance(target: real, lut: seq<LutEntry>): real {
    TForDistanceFrom(target, lut, 0)
  }

  /** `getTForDistance`. */
  method GetTForDistance(targetDist: real, lut: seq<LutEntry>) returns (t: real)
    ensures t == TForDistance(targetDist, lut)
  {
    var i := 0;
    while i + 1 < |lut|
      invariant TForDistanceFrom(targetDist, lut, i) == TForDistance(targetDist, lut)
    {
      if lut[i].len <= targetDist && lut[i + 1].len >= targetDist {
        var dRange := lut[i + 1].len - lut[i].len;
        var tRange := lut[i + 1].t - lut[i].t;
        var frac := if dRange == 0.0 then 0.0 else (targetDist - lut[i].len) / dRange;
        return lut[i].t + frac * tRange;
      }
      i := i + 1;
    }
    return 1.0;
  }

  /** Inside a bracket the interpolated t lies between the bracket's two t values. */
  lemma InterpolateBetween(lut: seq<LutEntry>, i: nat, target: real)
    requires i + 1 < |lut| && Brackets(lut, i, target) && lut[i].t <= lut[i + 1].t
    ensures lut[i].t <= Interpolate(lut, i, target) <= lut[i + 1].t
  {
    var dRange := lut[i + 1].len - lut[i].len;
    var tRange := lut[i + 1].t - lut[i].t;
    if dRange != 0.0 {
      var frac := (target - lut[i].len) / dRange;
      assert frac * dRange == target - lut[i].len;
      assert 0.0 <= frac <= 1.0;
      assert frac * tRange >= 0.0;
      assert tRange - frac * tRange == (1.0 - frac) * tRange;
      assert (1.0 - frac) * tRange >= 0.0;
    }
  }

  /** The first bracketing pair decides the result. */
  lemma {:induction false} TForDistanceFirst(target: real, lut: seq<LutEntry>, start: nat, i: nat)
    requires start <= i && i + 1 < |lut| && Brackets(lut, i, target)
    requires forall j :: start <= j < i ==> !Brackets(lut, j, target)
    ensures TForDistanceFrom(target, lut, start) == Interpolate(lut, i, target)
    ensures lut[i].t <= lut[i + 1].t ==> lut[i].t <= TForDistanceFrom(target, lut, start) <= lut[i + 1].t
    decreases i - start
  {
    if start < i {
      TForDistanceFirst(target, lut, start + 1, i);
    } else if lut[i].t <= lut[i + 1].t {
      InterpolateBetween(lut, i, target);
    }
  }

  /** No bracketing pair: the result is 1. */
  lemma {:induction false} TForDistanceNone(target: real, lut: seq<LutEntry>, start: nat)
    requires forall j :: start <= j && j + 1 < |lut| ==> !Brackets(lut, j, target)
    ensures TForDistanceFrom(target, lut, start) == 1.0
    decreases |lut| - start
  {
    if start + 1 < |lut| {
      TForDistanceNone(target, lut, start + 1);
    }
  }

  /** Over a table whose t values ascend, the result is 1 or lies inside some pair of entries. */
  lemma {:induction false} TForDistanceWithin(target: real, lut: seq<LutEntry>, start: nat)
    requires forall j :: 0 <= j && j + 1 < |lut| ==> lut[j].t <= lut[j + 1].t
    ensures var r := TForDistanceFrom(target, lut, start);
      r == 1.0 || exists i :: start <= i && i + 1 < |lut| && lut[i].t <= r <= lut[i + 1].t
    decreases |lut| - start
  {
    if start + 1 < |lut| {
      if Brackets(lut, start, target) {
        InterpolateBetween(lut, start, target);
      } else {
        TForDistanceWithin(target, lut, start + 1);
      }
    }
  }

  /** On an edge's table the lookup always returns a t in [0, 1]. */
  lemma TForDistanceInUnit(sqrt: Sqrt, c: Curve, target: real)
    ensures 0.0 <= TForDistance(target, BezierLut(sqrt, c)) <= 1.0
  {
    var lut := BezierLut(sqrt, c);
    forall k | 0 <= k <= Samples ensures lut[k].t == k as real / Samples as real {
      LutSamples(sqrt, c, Samples, k);
    }
    TForDistanceWithin(target, lut, 0);
  }

  // --- Clustered placement ---

  /** The arc length at which barrier `index` of `total` is centred: the cluster, spaced by
      BARRIER_SPACING, is centred on the curve's length. */
  function ClusterTarget(totalLen: real, index: int, total: int): real {
    var clusterWidth := (total - 1) as real * BarrierSpacing;
    var startDist := (totalLen - clusterWidth) / 2.0;
    startDist + index as real * BarrierSpacing
  }

  /** `Math.max(0, Math.min(hi, v))`. */
  function Clamp(v: real, hi: real): (r: real)
    ensures 0.0 <= hi ==> 0.0 <= r <= hi
    ensures 0.0 <= v <= hi ==> r == v
  {
    var m := if hi < v then hi else v;
    if 0.0 > m then 0.0 else m
  }

  /** `getClusteredBezierPosition`: the top-left corner of barrier `index` of `total` on the
      edge from `start` to `end`. */
  function ClusteredPosition(sqrt: Sqrt, start: Point, end: Point, index: int, total: int): Point {
    var c := EdgeCurve(start, end);
    var lut := BezierLut(sqrt, c);
    var totalLen := lut[Samples].len;
    var t := TForDistance(Clamp(ClusterTarget(totalLen, index, total), totalLen), lut);
    Sub(At(c, t), CenterOffset)
  }

  /** The same, computed as the source does, through the table and the lookup. */
  method GetClusteredBezierPosition(sqrt: Sqrt, start: Point, end: Point, index: int, total: int)
    returns (pos: Point)
    ensures pos == ClusteredPosition(sqrt, start, end, index, total)
  {
    var cp := ControlPoints(start, end);
    var lut, totalLen := GenerateBezierLUT(sqrt, start, cp.p1, cp.p2, end);
    var totalClusterWidth := (total - 1) as real * BarrierSpacing;
    var startDist := (totalLen - totalClusterWidth) / 2.0;
    var targetDist := startDist + index as real * BarrierSpacing;
    var clampedDist := Clamp(targetDist, totalLen);
    var t := GetTForDistance(clampedDist, lut);
    var p := PointOnBezier(start, cp.p1, cp.p2, end, t);
    pos := Point(p.x - CenterOffset.x, p.y - CenterOffset.y);
  }

  /** Neighbouring barriers are BARRIER_SPACING apart along the curve before clamping, and
      barriers `i` and `total - 1 - i` sit symmetrically about the middle of the curve. */
  lemma ClusterSpacing(totalLen: real, index: int, total: int)
    ensures ClusterTarget(totalLen, index + 1, total) - ClusterTarget(totalLen, index, total) == BarrierSpacing
    ensures ClusterTarget(totalLen, index, total) + ClusterTarget(totalLen, total - 1 - index, total) == totalLen
  {
  }

  /** A clustered barrier's centre lies on its edge, at some t in [0, 1]. */
  lemma ClusteredOnCurve(sqrt: Sqrt, start: Point, end: Point, index: int, total: int)
    ensures exists t ::
      0.0 <= t <= 1.0 && Add(ClusteredPosition(sqrt, start, end, index, total), CenterOffset) == At(EdgeCurve(start, end), t)
  {
    var c := EdgeCurve(start, end);
    var lut := BezierLut(sqrt, c);
    var totalLen := lut[Samples].len;
    var t := TForDistance(Clamp(ClusterTarget(totalLen, index, total), totalLen), lut);
    TForDistanceInUnit(sqrt, c, Clamp(ClusterTarget(totalLen, index, total), totalLen));
    assert Add(ClusteredPosition(sqrt, start, end, index, total), CenterOffset) == At(c, t);
  }

  /** With a non-negative square root the clamped target is a length the curve has. */
  lemma ClampedOnCurve(sqrt: Sqrt, c: Curve, index: int, total: int)
    requires NonNegativeSqrt(sqrt)
    ensures var totalLen := BezierLut(sqrt, c)[Samples].len;
      0.0 <= Clamp(ClusterTarget(totalLen, index, total), totalLen) <= totalLen
  {
    LutShape(sqrt, c);
  }

  // --- Closest t ---

  /** The search state: the best t so far, its squared distance, and whether any sample has
      been taken (`minDist = Infinity` before the first). */
  datatype Best = Best(t: real, dist: real, seen: bool)

  function DistSq(pos: Point, c: Curve, t: real): real {
    SquaredDistance(pos, At(c, t))
  }

  function Consider(st: Best, t: real, dist: real): Best {
    if !st.seen || dist < st.dist then Best(t, dist, true) else st
  }

  /** Coarse sample `k`: t = 0.02 k. */
  function CoarseT(k: nat): real { k as real * 0.02 }

  /** Fine sample `j` from `lo`: t = lo + 0.002 j. */
  function FineT(lo: real, j: nat): real { lo + j as real * 0.002 }

  function Min(a: real, b: real): real { if a <= b then a else b }
  function Max(a: real, b: real): real { if a >= b then a else b }

  /** The coarse loop, from sample `k` on. */
  function Coarse(pos: Point, c: Curve, k: nat, st: Best): Best
    decreases 51 - k
  {
    if CoarseT(k) <= 1.0 then Coarse(pos, c, k + 1, Consider(st, CoarseT(k), DistSq(pos, c, CoarseT(k))))
    else st
  }

  /** The refinement loop, from sample `j` on; its upper end follows the current best. */
  function Fine(pos: Point, c: Curve, lo: real, j: nat, st: Best): Best
    requires lo >= 0.0
    decreases 501 - j
  {
    var t := FineT(lo, j);
    if t <= Min(1.0, st.t + 0.02) then Fine(pos, c, lo, j + 1, Consider(st, t, DistSq(pos, c, t)))
    else st
  }

  const Unsearched: Best := Best(0.5, 0.0, false)

  function ClosestSearch(pos: Point, c: Curve): Best {
    var coarse := Coarse(pos, c, 0, Unsearched);
    Fine(pos, c, Max(0.0, coarse.t - 0.02), 0, coarse)
  }

  function ClosestT(pos: Point, c: Curve): real {
    ClosestSearch(pos, c).t
  }

  /** `getClosestTOnBezier`. */
  method GetClosestTOnBezier(pos: Point, p0: Point, p1: Point, p2: Point, p3: Point) returns (bestT: real)
    ensures bestT == ClosestT(pos, Curve(p0, p1, p2, p3))
  {
    ghost var c := Curve(p0, p1, p2, p3);
    bestT := 0.5;
    var minDist, seen := 0.0, false;
    var t := 0.0;
    ghost var k: nat := 0;
    while t <= 1.0
      invariant t == CoarseT(k)
      invariant Coarse(pos, c, k, Best(bestT, minDist, seen)) == Coarse(pos, c, 0, Unsearched)
      decreases 51 - k
    {
      var pt := PointOnBezier(p0, p1, p2, p3, t);
      var dist := SquaredDistance(pos, pt);
      if !seen || dist < minDist {
        minDist, bestT, seen := dist, t, true;
      }
      t := t + 0.02;
      k := k + 1;
    }
    ghost var coarse := Best(bestT, minDist, seen);
    var lo := Max(0.0, bestT - 0.02);
    t := lo;
    ghost var j: nat := 0;
    while t <= Min(1.0, bestT + 0.02)
      invariant t == FineT(lo, j)
      invariant Fine(pos, c, lo, j, Best(bestT, minDist, seen)) == Fine(pos, c, lo, 0, coarse)
      decreases 501 - j
    {
      var pt := PointOnBezier(p0, p1, p2, p3, t);
      var dist := SquaredDistance(pos, pt);
      if !seen || dist < minDist {
        minDist, bestT, seen := dist, t, true;
      }
      t := t + 0.002;
      j := j + 1;
    }
  }

  /** The state's distance is that of its t. */
  predicate Tracks(pos: Point, c: Curve, st: Best) {
    st.seen ==> st.dist == DistSq(pos, c, st.t)
  }

  /** After the coarse loop: some sample was taken, the best t is in [0, 1] and no coarse
      sample from `k` on is closer. */
  lemma {:induction false} CoarseBest(pos: Point, c: Curve, k: nat, st: Best)
    requires k <= 51 && Tracks(pos, c, st) && 0.0 <= st.t <= 1.0
    ensures var r := Coarse(pos, c, k, st);
      Tracks(pos, c, r) && 0.0 <= r.t <= 1.0
      && (st.seen ==> r.seen && r.dist <= st.dist) && (k <= 50 ==> r.seen)
      && forall m: nat :: k <= m <= 50 ==> r.dist <= DistSq(pos, c, CoarseT(m))
    decreases 51 - k
  {
    if CoarseT(k) <= 1.0 {
      var next := Consider(st, CoarseT(k), DistSq(pos, c, CoarseT(k)));
      CoarseBest(pos, c, k + 1, next);
    }
  }

  /** The refinement keeps a sampled t in [0, 1] and never makes the distance worse. */
  lemma {:induction false} FineBest(pos: Point, c: Curve, lo: real, j: nat, st: Best)
    requires lo >= 0.0 && st.seen && Tracks(pos, c, st) && 0.0 <= st.t <= 1.0
    ensures var r := Fine(pos, c, lo, j, st);
      r.seen && Tracks(pos, c, r) && 0.0 <= r.t <= 1.0 && r.dist <= st.dist
    decreases 501 - j
  {
    var t := FineT(lo, j);
    if t <= Min(1.0, st.t + 0.02) {
      FineBest(pos, c, lo, j + 1, Consider(st, t, DistSq(pos, c, t)));
    }
  }

  /** The search returns a t in [0, 1] at least as close as every coarse sample. */
  lemma ClosestIsBest(pos: Point, c: Curve)
    ensures 0.0 <= ClosestT(pos, c) <= 1.0
    ensures forall m: nat :: m <= 50 ==> DistSq(pos, c, ClosestT(pos, c)) <= DistSq(pos, c, CoarseT(m))
  {
    var coarse := Coarse(pos, c, 0, Unsearched);
    CoarseBest(pos, c, 0, Unsearched);
    FineBest(pos, c, Max(0.0, coarse.t - 0.02), 0, coarse);
  }
}
