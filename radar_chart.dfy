/** The six-axis radar chart (`app/components/RadarChart.tsx`): the arity
    guard, the animation effect and its frames, and the chart geometry.
    `Math.cos`/`Math.sin` of the six axis angles are given as six direction
    vectors `dirs`, so every point is `center + r * dirs[i]`; the clock and the
    browser's frame handles are parameters. */
module RadarChart {
  import opened JsValues

  const AxisCount: nat := 6
  const AnimationDuration: real := 500.0
  const RadiusFactor: real := 0.7
  const LabelRadiusMultiplier: real := 1.3
  const ValueRadiusOffset: real := 12.0
  const LabelClearance: real := 25.0
  const NumberOfSteps: nat := 10
  const AnchorEpsilon: real := 0.000001

  // ---------------------------------------------------------------------------
  // Arity guard

  /** The chart draws only with exactly six values and six labels. */
  predicate ArityOk(data: seq<real>, labels: seq<string>) {
    |data| == AxisCount && |labels| == AxisCount
  }

  // ---------------------------------------------------------------------------
  // Animation: pure parts

  /** `data.map(() => 0)`. */
  function Zeros(n: nat): (z: seq<real>)
    ensures |z| == n && forall i :: 0 <= i < n ==> z[i] == 0.0
  {
    seq(n, _ => 0.0)
  }

  /** `data.every(d => d === 0)`. */
  predicate AllZero(data: seq<real>) {
    forall i :: 0 <= i < |data| ==> data[i] == 0.0
  }

  /** The values an animation starts from: the values on screen when the
      data changed by value since the last run, otherwise zeros (the all-zero
      data itself when it is all zero). */
  function StartVector(previous: Option<seq<real>>, shown: seq<real>, data: seq<real>): (start: seq<real>)
    ensures start == shown || start == Zeros(|data|)
    ensures previous.Some? && previous.value != data ==> start == shown
  {
    if previous.Some? && previous.value != data then shown
    else if AllZero(data) then data
    else Zeros(|data|)
  }

  /** Without a previous run (or with unchanged data) both branches of the
      choice start from zeros. */
  lemma StartsFromZerosUnlessChanged(previous: Option<seq<real>>, shown: seq<real>, data: seq<real>)
    requires previous.None? || previous.value == data
    ensures StartVector(previous, shown, data) == Zeros(|data|)
  {
    if AllZero(data) {
      assert forall i :: 0 <= i < |data| ==> data[i] == Zeros(|data|)[i];
    }
  }

  /** After a change of data the animation starts where the chart stands:
      its first frame (progress 0) shows exactly what was on screen. */
  lemma RestartIsContinuous(previous: seq<real>, shown: seq<real>, data: seq<real>)
    requires previous != data && |shown| == |data|
    ensures Interpolate(StartVector(Some(previous), shown, data), data, 0.0) == shown
  {
  }

  /** `Math.min((now - startTime) / animationDuration, 1)`. */
  function Progress(startTime: real, now: real): (p: real)
    ensures p <= 1.0
    ensures startTime <= now ==> 0.0 <= p
    ensures p == 1.0 <==> now - startTime >= AnimationDuration
    ensures now - startTime <= AnimationDuration ==> p * AnimationDuration == now - startTime
  {
    var elapsed := (now - startTime) / AnimationDuration;
    if elapsed <= 1.0 then elapsed else 1.0
  }

  lemma MulNonneg(a: real, b: real)
    requires a >= 0.0 && b >= 0.0
    ensures a * b >= 0.0
  {
  }

  lemma MulMonotone(a: real, b: real, c: real)
    requires a >= 0.0 && b <= c
    ensures a * b <= a * c
  {
    MulNonneg(a, c - b);
    assert a * (c - b) == a * c - a * b;
  }

  /** `d * p` lies between 0 and `d` for a progress in [0, 1]. */
  lemma ScaledBetween(d: real, p: real)
    requires 0.0 <= p <= 1.0
    ensures d >= 0.0 ==> 0.0 <= d * p <= d
    ensures d <= 0.0 ==> d <= d * p <= 0.0
  {
    if d >= 0.0 {
      MulNonneg(d, p);
      MulMonotone(d, p, 1.0);
    } else {
      assert (-d) * p == -(d * p);
      MulNonneg(-d, p);
      MulMonotone(-d, p, 1.0);
    }
  }

  /** `initialVal + (targetVal - initialVal) * progress`. */
  function Lerp(init: real, target: real, progress: real): (v: real)
    ensures progress == 0.0 ==> v == init
    ensures progress == 1.0 ==> v == target
  {
    init + (target - init) * progress
  }

  /** For a progress in [0, 1] the value lies between start and target. */
  lemma LerpBetween(init: real, target: real, progress: real)
    requires 0.0 <= progress <= 1.0
    ensures init <= target ==> init <= Lerp(init, target, progress) <= target
    ensures target <= init ==> target <= Lerp(init, target, progress) <= init
  {
    var d := target - init;
    ScaledBetween(d, progress);
    var step := d * progress;
    assert Lerp(init, target, progress) == init + step;
  }

  /** One frame's values, axis by axis. */
  function Interpolate(init: seq<real>, target: seq<real>, progress: real): (r: seq<real>)
    requires |init| == |target|
    ensures |r| == |target|
  {
    seq(|target|, i requires 0 <= i < |target| => Lerp(init[i], target[i], progress))
  }

  /** For a progress in [0, 1] each value lies between where it started and
      its target. */
  lemma InterpolateBetween(init: seq<real>, target: seq<real>, progress: real)
    requires |init| == |target| && 0.0 <= progress <= 1.0
    ensures var r := Interpolate(init, target, progress);
      forall i :: 0 <= i < |r| ==>
        (init[i] <= target[i] ==> init[i] <= r[i] <= target[i])
        && (target[i] <= init[i] ==> target[i] <= r[i] <= init[i])
  {
    var r := Interpolate(init, target, progress);
    forall i | 0 <= i < |r|
      ensures (init[i] <= target[i] ==> init[i] <= r[i] <= target[i])
           && (target[i] <= init[i] ==> target[i] <= r[i] <= init[i])
    {
      LerpBetween(init[i], target[i], progress);
    }
  }

  /** Progress 0 shows the start, progress 1 the target. */
  lemma InterpolateEndpoints(init: seq<real>, target: seq<real>)
    requires |init| == |target|
    ensures Interpolate(init, target, 0.0) == init
    ensures Interpolate(init, target, 1.0) == target
  {
  }

  /** Later frames are never farther from the target than earlier ones. */
  lemma InterpolateApproachesTarget(init: seq<real>, target: seq<real>, p: real, q: real, i: nat)
    requires |init| == |target| && i < |target| && 0.0 <= p <= q <= 1.0
    ensures var gapP := target[i] - Interpolate(init, target, p)[i];
      var gapQ := target[i] - Interpolate(init, target, q)[i];
      (gapP >= 0.0 ==> 0.0 <= gapQ <= gapP) && (gapP <= 0.0 ==> gapP <= gapQ <= 0.0)
  {
    var d := target[i] - init[i];
    assert target[i] - Interpolate(init, target, p)[i] == d * (1.0 - p);
    assert target[i] - Interpolate(init, target, q)[i] == d * (1.0 - q);
    ScaledBetween(d, 1.0 - p);
    ScaledBetween(d, 1.0 - q);
    if d >= 0.0 {
      assert d * (1.0 - p) - d * (1.0 - q) == d * (q - p);
      ScaledBetween(d, q - p);
    } else {
      assert d * (1.0 - q) - d * (1.0 - p) == (-d) * (q - p);
      ScaledBetween(-d, q - p);
    }
  }

  /** Progress never goes back as time passes. */
  lemma ProgressMonotone(startTime: real, t1: real, t2: real)
    requires t1 <= t2
    ensures Progress(startTime, t1) <= Progress(startTime, t2)
  {
  }

  /** A later frame is never farther from the target than an earlier one:
      each axis closes in on its target, never overshooting it. */
  lemma {:induction false} LaterFrameCloser(init: seq<real>, target: seq<real>, startTime: real, t1: real, t2: real, i: nat)
    requires |init| == |target| && i < |target| && startTime <= t1 <= t2
    ensures var gap1 := target[i] - Interpolate(init, target, Progress(startTime, t1))[i];
      var gap2 := target[i] - Interpolate(init, target, Progress(startTime, t2))[i];
      (gap1 >= 0.0 ==> 0.0 <= gap2 <= gap1) && (gap1 <= 0.0 ==> gap1 <= gap2 <= 0.0)
  {
    ProgressMonotone(startTime, t1, t2);
    InterpolateApproachesTarget(init, target, Progress(startTime, t1), Progress(startTime, t2), i);
  }

  // ---------------------------------------------------------------------------
  // Animation: the component's state

  /** The chart's animation state: `animatedData` (React state), the two
      refs `previousDataRef` and `animationFrameIdRef`, the values captured
      by the scheduled `animate` closure, and `pending`, the frames the
      browser holds for this chart. */
  class Chart {
    var animatedData: seq<real>
    var previousData: Option<seq<real>>
    var frameId: Option<nat>
    var pending: set<nat>
    // captured by the `animate` closure of the run that scheduled it
    var startFrom: seq<real>
    var target: seq<real>
    var startTime: real

    /** At most one frame is pending, it is the one the ref names, and the
        live animation heads for the last data seen. */
    predicate Valid()
      reads this
    {
      && |animatedData| == AxisCount && |startFrom| == AxisCount && |target| == AxisCount
      && (previousData.Some? ==> |previousData.value| == AxisCount)
      && (frameId.Some? ==> frameId.value > 0)
      && (frameId.None? ==> pending == {})
      && (frameId.Some? ==> pending <= {frameId.value})
      && (pending != {} ==> previousData == Some(target))
    }

    /** `useState(() => data.map(() => 0))` with both refs unset. */
    constructor (data: seq<real>)
      requires |data| == AxisCount
      ensures Valid()
      ensures animatedData == Zeros(AxisCount) && previousData.None? && frameId.None? && pending == {}
    {
      animatedData := Zeros(|data|);
      previousData := None;
      frameId := None;
      pending := {};
      startFrom := Zeros(AxisCount);
      target := Zeros(AxisCount);
      startTime := 0.0;
    }

    /** The effect, run for new `data` (or a new `maxValue`) at time `now`.
        It cancels the pending frame, and schedules a frame (the browser
        answers `handle`) only on the first run or when the data differs by
        value. On a re-run with equal data nothing is rescheduled, so an
        animation still in flight stops where it stands. */
    method RunEffect(data: seq<real>, now: real, handle: nat)
      requires Valid() && |data| == AxisCount && handle > 0
      modifies this
      ensures Valid()
      ensures previousData == Some(data) && animatedData == old(animatedData)
      ensures old(previousData).None? || old(previousData).value != data ==>
        && frameId == Some(handle) && pending == {handle}
        && startFrom == StartVector(old(previousData), old(animatedData), data)
        && target == data && startTime == now
      ensures old(previousData).Some? && old(previousData).value == data ==>
        && frameId == old(frameId) && pending == {}
        && startFrom == old(startFrom) && target == old(target) && startTime == old(startTime)
    {
      var animationStartValues := animatedData;
      var from := StartVector(previousData, animationStartValues, data);
      if frameId.Some? {
        pending := pending - {frameId.value};
      }
      if previousData.None? || previousData.value != data {
        startFrom, target, startTime := from, data, now;
        frameId := Some(handle);
        pending := pending + {handle};
      }
      previousData := Some(data);
    }

    /** The effect's cleanup (on unmount and before each re-run): cancel the
        pending frame. The ref keeps its value. */
    method Cleanup()
      requires Valid()
      modifies this`pending
      ensures Valid() && pending == {}
    {
      if frameId.Some? {
        pending := pending - {frameId.value};
      }
    }

    /** The `animate` callback, fired by the browser for frame `handle` at
        time `now`. Before the end it shows the interpolated values and asks
        for the next frame (`next`); at the end it shows the target exactly
        and schedules nothing. */
    method OnFrame(handle: nat, now: real, next: nat)
      requires Valid() && handle in pending && next > 0
      modifies this`animatedData, this`frameId, this`pending
      ensures Valid()
      ensures Progress(old(startTime), now) < 1.0 ==>
        && animatedData == Interpolate(startFrom, target, Progress(startTime, now))
        && frameId == Some(next) && pending == {next}
      ensures Progress(old(startTime), now) == 1.0 ==>
        animatedData == target && frameId == old(frameId) && pending == {}
    {
      pending := pending - {handle};
      var progress := Progress(startTime, now);
      var nextAnimatedData := Interpolate(startFrom, target, progress);
      animatedData := nextAnimatedData;
      if progress < 1.0 {
        frameId := Some(next);
        pending := pending + {next};
      } else {
        animatedData := target;
      }
    }
  }

  /** The component never holds more than one frame at a time. */
  lemma AtMostOnePendingFrame(chart: Chart)
    requires chart.Valid()
    ensures |chart.pending| <= 1
  {
    if chart.frameId.Some? {
      var h := chart.frameId.value;
      assert chart.pending == {} || chart.pending == {h};
    }
  }

  // ---------------------------------------------------------------------------
  // Geometry

  datatype Vec = Vec(x: real, y: real)
  datatype Segment = Segment(p1: Vec, p2: Vec)
  datatype LabelPoint = LabelPoint(at: Vec, text: string)
  datatype ValueTextPoint = ValueTextPoint(at: Vec, value: int)
  datatype Anchor = Start | Middle | End
  datatype Ring = Ring(scale: real, points: seq<Vec>, dashArray: string)

  /** `center + r * (cos, sin)` along one axis. */
  function Along(center: real, r: real, dir: Vec): Vec {
    Vec(center + r * dir.x, center + r * dir.y)
  }

  /** `r * factor`: a radius scaled by a fraction, kept as one named term. */
  function Scale(r: real, factor: real): real {
    r * factor
  }

  function Radius(size: real): real {
    size / 2.0 * RadiusFactor
  }

  lemma DivSelf(m: real)
    requires m != 0.0
    ensures m / m == 1.0
  {
  }

  lemma DivBounds(a: real, m: real)
    requires m > 0.0 && 0.0 <= a <= m
    ensures 0.0 <= a / m <= 1.0
    ensures a / m * m == a
  {
    var q := a / m;
    assert q * m == a;
    if q < 0.0 {
      MulMonotone(m, q, 0.0);
    } else if q > 1.0 {
      MulMonotone(m, 1.0, q);
    }
  }

  lemma MulDivCancel(s: real, m: real)
    requires m != 0.0
    ensures (s * m) / m == s
  {
  }

  /** `Math.min(Math.max(value, 0), maxValue) / maxValue`. */
  function Normalize(value: real, maxValue: real): (n: real)
    requires maxValue != 0.0
    ensures maxValue > 0.0 ==> 0.0 <= n <= 1.0
    ensures maxValue > 0.0 && value <= 0.0 ==> n == 0.0
    ensures value >= maxValue ==> n == 1.0
    ensures maxValue > 0.0 && 0.0 <= value <= maxValue ==> n * maxValue == value
  {
    var lower := if value >= 0.0 then value else 0.0;
    var clamped := if lower <= maxValue then lower else maxValue;
    var n := clamped / maxValue;
    DivSelf(maxValue);
    if maxValue > 0.0 then DivBounds(clamped, maxValue); n else n
  }

  /** One polygon vertex (and the circle drawn on it). A value at or below
      zero sits on the center, one at or above `maxValue` on the axis end. */
  function VertexPoint(value: real, center: real, radius: real, maxValue: real, dir: Vec): (p: Vec)
    requires maxValue != 0.0
    ensures maxValue > 0.0 && value <= 0.0 ==> p == Vec(center, center)
    ensures value >= maxValue ==> p == Along(center, radius, dir)
  {
    var n := Normalize(value, maxValue);
    assert n == 0.0 ==> Scale(radius, n) == 0.0;
    assert n == 1.0 ==> Scale(radius, n) == radius;
    Along(center, Scale(radius, n), dir)
  }

  /** The polygon's six vertices, from the values on screen. */
  function VertexPoints(animated: seq<real>, size: real, maxValue: real, dirs: seq<Vec>): (ps: seq<Vec>)
    requires |animated| == |dirs| && maxValue != 0.0
    ensures |ps| == |animated|
    ensures forall i :: 0 <= i < |ps| ==>
      ps[i] == VertexPoint(animated[i], size / 2.0, Radius(size), maxValue, dirs[i])
  {
    seq(|animated|, i requires 0 <= i < |animated| =>
      VertexPoint(animated[i], size / 2.0, Radius(size), maxValue, dirs[i]))
  }

  /** `Math.round`: the nearest integer, halves rounded up. */
  function Round(x: real): (r: int)
    ensures x - 0.5 < r as real <= x + 0.5
  {
    (x + 0.5).Floor
  }

  /** The radius of a value's text: 12 past its vertex, but at least 25
      inside the labels. */
  function ValueTextRadius(radius: real, normalized: real): (r: real)
    ensures r <= Scale(radius, normalized) + ValueRadiusOffset
    ensures r <= radius * LabelRadiusMultiplier - LabelClearance
    ensures r == Scale(radius, normalized) + ValueRadiusOffset || r == radius * LabelRadiusMultiplier - LabelClearance
  {
    var valueTextRadius := Scale(radius, normalized) + ValueRadiusOffset;
    var limit := radius * LabelRadiusMultiplier - LabelClearance;
    if valueTextRadius <= limit then valueTextRadius else limit
  }

  function AxisLineAt(center: real, radius: real, dir: Vec): Segment {
    Segment(Vec(center, center), Along(center, radius, dir))
  }

  function LabelPointAt(center: real, radius: real, dir: Vec, text: string): LabelPoint {
    LabelPoint(Along(center, radius * LabelRadiusMultiplier, dir), text)
  }

  function ValueTextPointAt(center: real, radius: real, value: real, maxValue: real, dir: Vec): ValueTextPoint
    requires maxValue != 0.0
  {
    ValueTextPoint(Along(center, ValueTextRadius(radius, Normalize(value, maxValue)), dir), Round(value))
  }

  /** The per-axis loop: an axis line, a label point and a value text point
      for each of the six axes. */
  method AxisGeometry(animated: seq<real>, labels: seq<string>, size: real, maxValue: real, dirs: seq<Vec>)
    returns (axisLines: seq<Segment>, labelPoints: seq<LabelPoint>, valueTextPoints: seq<ValueTextPoint>)
    requires |animated| == AxisCount && |labels| == AxisCount && |dirs| == AxisCount && maxValue != 0.0
    ensures |axisLines| == AxisCount && |labelPoints| == AxisCount && |valueTextPoints| == AxisCount
    ensures forall i :: 0 <= i < AxisCount ==>
      && axisLines[i] == AxisLineAt(size / 2.0, Radius(size), dirs[i])
      && labelPoints[i] == LabelPointAt(size / 2.0, Radius(size), dirs[i], labels[i])
      && valueTextPoints[i] == ValueTextPointAt(size / 2.0, Radius(size), animated[i], maxValue, dirs[i])
  {
    var center := size / 2.0;
    var radius := center * RadiusFactor;
    axisLines, labelPoints, valueTextPoints := [], [], [];
    for i := 0 to AxisCount
      invariant |axisLines| == i && |labelPoints| == i && |valueTextPoints| == i
      invariant forall k :: 0 <= k < i ==> axisLines[k] == AxisLineAt(center, radius, dirs[k])
      invariant forall k :: 0 <= k < i ==> labelPoints[k] == LabelPointAt(center, radius, dirs[k], labels[k])
      invariant forall k :: 0 <= k < i ==>
        valueTextPoints[k] == ValueTextPointAt(center, radius, animated[k], maxValue, dirs[k])
    {
      var axisEnd := Along(center, radius, dirs[i]);
      axisLines := axisLines + [Segment(Vec(center, center), axisEnd)];
      assert axisLines[i] == AxisLineAt(center, radius, dirs[i]);

      var labelRadiusEffective := radius * LabelRadiusMultiplier;
      labelPoints := labelPoints + [LabelPoint(Along(center, labelRadiusEffective, dirs[i]), labels[i])];
      assert labelPoints[i] == LabelPointAt(center, radius, dirs[i], labels[i]);

      var valueData := animated[i];
      var normalizedValuePoint := Normalize(valueData, maxValue);
      var valueTextRadius := Scale(radius, normalizedValuePoint) + ValueRadiusOffset;
      var effectiveValueTextRadius :=
        if valueTextRadius <= labelRadiusEffective - LabelClearance then valueTextRadius
        else labelRadiusEffective - LabelClearance;
      assert effectiveValueTextRadius == ValueTextRadius(radius, normalizedValuePoint);
      valueTextPoints := valueTextPoints + [ValueTextPoint(Along(center, effectiveValueTextRadius, dirs[i]), Round(valueData))];
    }
  }

  /** The six corners of a hexagon of radius `r` around the center. */
  function HexagonPoints(center: real, r: real, dirs: seq<Vec>): (ps: seq<Vec>)
    requires |dirs| == AxisCount
    ensures |ps| == AxisCount
    ensures forall j :: 0 <= j < AxisCount ==> ps[j] == Along(center, r, dirs[j])
  {
    seq(AxisCount, j requires 0 <= j < AxisCount => Along(center, r, dirs[j]))
  }

  /** Only the last step has scale 1. */
  lemma LastStepIsFullScale(k: nat)
    ensures (k + 1) as real / NumberOfSteps as real == 1.0 <==> k == NumberOfSteps - 1
  {
    var scale := (k + 1) as real / NumberOfSteps as real;
    assert scale * NumberOfSteps as real == (k + 1) as real;
  }

  /** The background hexagon of step `k`: scale `(k + 1) / 10`, dashed
      unless it is the full-scale one. */
  function RingAt(center: real, radius: real, dirs: seq<Vec>, k: nat): (ring: Ring)
    requires |dirs| == AxisCount
    ensures ring.scale == (k + 1) as real / NumberOfSteps as real
    ensures ring.points == HexagonPoints(center, Scale(radius, ring.scale), dirs)
    ensures ring.dashArray == "none" <==> k == NumberOfSteps - 1
    ensures ring.dashArray != "none" ==> ring.dashArray == "2,4"
  {
    var scale := (k + 1) as real / NumberOfSteps as real;
    LastStepIsFullScale(k);
    Ring(scale, HexagonPoints(center, Scale(radius, scale), dirs), if scale == 1.0 then "none" else "2,4")
  }

  /** The ten background hexagons, at a tenth of the radius apart; only the
      outermost is drawn solid. */
  function BackgroundRings(center: real, radius: real, dirs: seq<Vec>): (rings: seq<Ring>)
    requires |dirs| == AxisCount
    ensures |rings| == NumberOfSteps
    ensures forall k :: 0 <= k < NumberOfSteps ==>
      && rings[k].scale == (k + 1) as real / NumberOfSteps as real
      && rings[k].points == HexagonPoints(center, Scale(radius, rings[k].scale), dirs)
      && (rings[k].dashArray == "none" <==> k == NumberOfSteps - 1)
      && (rings[k].dashArray != "none" ==> rings[k].dashArray == "2,4")
  {
    var rings := seq(NumberOfSteps, k requires 0 <= k < NumberOfSteps => RingAt(center, radius, dirs, k));
    assert forall k :: 0 <= k < NumberOfSteps ==> rings[k] == RingAt(center, radius, dirs, k);
    rings
  }

  /** The rings are strictly nested, so their keys (`hexagon-scale-${scale}`)
      are distinct. */
  lemma RingsNested(center: real, radius: real, dirs: seq<Vec>, k: nat, l: nat)
    requires |dirs| == AxisCount && k < l < NumberOfSteps
    ensures BackgroundRings(center, radius, dirs)[k].scale < BackgroundRings(center, radius, dirs)[l].scale
  {
  }

  /** The rings mark tenths of `maxValue`: a value of `scale * maxValue` puts
      its vertex on that ring, and the outermost ring runs through the axis
      ends. */
  lemma RingsMarkTenths(center: real, radius: real, maxValue: real, dirs: seq<Vec>, k: nat, j: nat)
    requires |dirs| == AxisCount && maxValue > 0.0 && k < NumberOfSteps && j < AxisCount
    ensures var ring := BackgroundRings(center, radius, dirs)[k];
      ring.points[j] == VertexPoint(ring.scale * maxValue, center, radius, maxValue, dirs[j])
    ensures BackgroundRings(center, radius, dirs)[NumberOfSteps - 1].points[j] == AxisLineAt(center, radius, dirs[j]).p2
  {
    var ring := BackgroundRings(center, radius, dirs)[k];
    var scale := ring.scale;
    var v := scale * maxValue;
    ScaledBetween(maxValue, scale);
    assert v == maxValue * scale;
    MulDivCancel(scale, maxValue);
    assert Normalize(v, maxValue) == scale;
    assert ring.points[j] == Along(center, Scale(radius, scale), dirs[j]);
    assert Scale(radius, 1.0) == radius;
  }

  /** The text anchor: "middle" within 1e-6 of the center, else "end" to its
      left and "start" to its right. */
  function TextAnchor(x: real, center: real): (a: Anchor)
    ensures a == Middle <==> -AnchorEpsilon < x - center < AnchorEpsilon
    ensures a == End <==> x - center <= -AnchorEpsilon
    ensures a == Start <==> x - center >= AnchorEpsilon
  {
    var offset := if x - center >= 0.0 then x - center else center - x;
    if offset < AnchorEpsilon then Middle else if x < center then End else Start
  }

  /** The six directions of the chart, as far as the anchors care: the top
      and bottom axes are vertical, the two right-hand axes share a positive
      horizontal part and the left-hand ones its mirror. */
  predicate HexagonDirections(dirs: seq<Vec>) {
    && |dirs| == AxisCount
    && dirs[0].x == 0.0 && dirs[3].x == 0.0
    && dirs[1].x > 0.0 && dirs[2].x == dirs[1].x
    && dirs[4].x == -dirs[1].x && dirs[5].x == -dirs[1].x
  }

  /** Labels of a chart large enough to leave the 1e-6 band: centred on the
      vertical axes, flowing right on the right-hand axes and left on the
      left-hand ones. */
  lemma LabelAnchors(size: real, dirs: seq<Vec>, labels: seq<string>)
    requires HexagonDirections(dirs) && |labels| == AxisCount
    requires Radius(size) * LabelRadiusMultiplier * dirs[1].x >= AnchorEpsilon
    ensures forall i :: 0 <= i < AxisCount ==>
      TextAnchor(LabelPointAt(size / 2.0, Radius(size), dirs[i], labels[i]).at.x, size / 2.0)
      == if i == 0 || i == 3 then Middle else if i == 1 || i == 2 then Start else End
  {
    var center := size / 2.0;
    var r := Radius(size) * LabelRadiusMultiplier;
    forall i | 0 <= i < AxisCount
      ensures TextAnchor(LabelPointAt(center, Radius(size), dirs[i], labels[i]).at.x, center)
        == if i == 0 || i == 3 then Middle else if i == 1 || i == 2 then Start else End
    {
      var x := LabelPointAt(center, Radius(size), dirs[i], labels[i]).at.x;
      assert x - center == r * dirs[i].x;
      if i == 0 || i == 3 {
        assert r * dirs[i].x == 0.0;
      } else if i == 1 || i == 2 {
        assert r * dirs[i].x == r * dirs[1].x;
      } else {
        assert r * dirs[i].x == -(r * dirs[1].x);
      }
    }
  }

  /** Mirror-image points get mirror-image anchors. */
  lemma AnchorMirror(center: real, offset: real)
    ensures TextAnchor(center + offset, center) == Middle <==> TextAnchor(center - offset, center) == Middle
    ensures TextAnchor(center + offset, center) == Start <==> TextAnchor(center - offset, center) == End
  {
  }

  datatype Geometry = Geometry(
    vertices: seq<Vec>,
    axisLines: seq<Segment>,
    labelPoints: seq<LabelPoint>,
    valueTextPoints: seq<ValueTextPoint>,
    rings: seq<Ring>)

  /** One render: nothing without six values and six labels, otherwise the
      polygon, axes, labels, value texts and background rings drawn from the
      values on screen (`animated`). */
  method Render(data: seq<real>, labels: seq<string>, animated: seq<real>, size: real, maxValue: real, dirs: seq<Vec>)
    returns (g: Option<Geometry>)
    requires |dirs| == AxisCount && maxValue != 0.0
    requires ArityOk(data, labels) ==> |animated| == AxisCount
    ensures g.None? <==> !ArityOk(data, labels)
    ensures g.Some? ==>
      && g.value.vertices == VertexPoints(animated, size, maxValue, dirs)
      && g.value.rings == BackgroundRings(size / 2.0, Radius(size), dirs)
      && |g.value.axisLines| == AxisCount && |g.value.labelPoints| == AxisCount
      && |g.value.valueTextPoints| == AxisCount
      && forall i :: 0 <= i < AxisCount ==>
        && g.value.axisLines[i] == AxisLineAt(size / 2.0, Radius(size), dirs[i])
        && g.value.labelPoints[i] == LabelPointAt(size / 2.0, Radius(size), dirs[i], labels[i])
        && g.value.valueTextPoints[i] == ValueTextPointAt(size / 2.0, Radius(size), animated[i], maxValue, dirs[i])
  {
    if !ArityOk(data, labels) {
      return None;
    }
    var vertices := VertexPoints(animated, size, maxValue, dirs);
    var axisLines, labelPoints, valueTextPoints := AxisGeometry(animated, labels, size, maxValue, dirs);
    var rings := BackgroundRings(size / 2.0, Radius(size), dirs);
    g := Some(Geometry(vertices, axisLines, labelPoints, valueTextPoints, rings));
  }
}
