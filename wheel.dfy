/**
 Model of the wheel (js/wheel.js): its angular state, the friction physics of
 `update`, and the angle and distance arithmetic that `render` performs for
 every segment before it draws.
 */
module Spinner {

  /** Math.PI, the nearest double to pi, read as an exact real. */
  const Pi: real := 3.141592653589793

  /** The constant deceleration the wheel applies, in radians per ms per ms. */
  const Friction: real := 0.00001

  /** Offset of the first text line's baseline band from the rim. */
  const RimMargin: real := 15.0

  /** Radial step between consecutive text lines of a segment. */
  const LineSpacing: real := 45.0

  /** One wedge of the wheel: its angular width, fill colour and lines of text. */
  datatype Segment = Segment(width: real, fillStyle: string, text: seq<string>)

  /** Where render puts one text line: along the bisector, at `distance` from
      the hub, rotated by `rotation` so that its baseline is across the radius. */
  datatype TextPlacement = TextPlacement(text: string, distance: real, rotation: real)

  /** The span render gives one segment, its bisector, and its text lines. */
  datatype Sector = Sector(start: real, end: real, center: real, lines: seq<TextPlacement>)

  function Abs(x: real): real { if x < 0.0 then -x else x }

  function Max(a: real, b: real): real { if a < b then b else a }

  /**
   The speed after one `update`: friction moves it toward zero by
   friction * elapsed and stops at zero rather than crossing it.
   */
  function Decayed(speed: real, friction: real, elapsed: real): (r: real)
    ensures speed == 0.0 ==> r == 0.0
    ensures 0.0 <= friction && 0.0 <= elapsed ==>
              (speed < 0.0 ==> speed <= r <= 0.0) && (speed > 0.0 ==> 0.0 <= r <= speed)
    ensures 0.0 <= friction && 0.0 <= elapsed ==>
              Abs(r) == Max(Abs(speed) - friction * elapsed, 0.0)
  {
    if speed == 0.0 then speed
    else if speed < 0.0 then
      var slower := speed + friction * elapsed;
      if slower > 0.0 then 0.0 else slower
    else
      var slower := speed - friction * elapsed;
      if slower < 0.0 then 0.0 else slower
  }

  /** The speed after n frames that each last `elapsed` ms. */
  function Coast(speed: real, friction: real, elapsed: real, n: nat): real
    decreases n
  {
    if n == 0 then speed else Coast(Decayed(speed, friction, elapsed), friction, elapsed, n - 1)
  }

  /** Friction never flips the sign of the speed and never makes it larger. */
  lemma {:induction false} CoastKeepsSign(speed: real, friction: real, elapsed: real, n: nat)
    requires 0.0 <= friction && 0.0 <= elapsed
    ensures speed >= 0.0 ==> 0.0 <= Coast(speed, friction, elapsed, n) <= speed
    ensures speed <= 0.0 ==> speed <= Coast(speed, friction, elapsed, n) <= 0.0
    decreases n
  {
    if n > 0 {
      CoastKeepsSign(Decayed(speed, friction, elapsed), friction, elapsed, n - 1);
    }
  }

  /** Each further frame can only bring the speed closer to zero. */
  lemma {:induction false} CoastMonotone(speed: real, friction: real, elapsed: real, n: nat)
    requires 0.0 <= friction && 0.0 <= elapsed
    ensures Abs(Coast(speed, friction, elapsed, n + 1)) <= Abs(Coast(speed, friction, elapsed, n))
    decreases n
  {
    if n > 0 {
      CoastMonotone(Decayed(speed, friction, elapsed), friction, elapsed, n - 1);
    }
  }

  /** A wheel at rest stays at rest. */
  lemma {:induction false} RestIsFinal(friction: real, elapsed: real, n: nat)
    ensures Coast(0.0, friction, elapsed, n) == 0.0
  {
    if n > 0 {
      RestIsFinal(friction, elapsed, n - 1);
    }
  }

  /** n frames are enough to stop the wheel once n * friction * elapsed covers its speed. */
  lemma {:induction false} RestWithin(speed: real, friction: real, elapsed: real, n: nat)
    requires 0.0 < friction && 0.0 < elapsed
    requires Abs(speed) <= n as real * (friction * elapsed)
    ensures Coast(speed, friction, elapsed, n) == 0.0
    decreases n
  {
    if n > 0 {
      var next := Decayed(speed, friction, elapsed);
      assert Abs(next) <= (n - 1) as real * (friction * elapsed);
      RestWithin(next, friction, elapsed, n - 1);
    }
  }

  /** A number of frames after which a spinning wheel is certainly at rest. */
  function StepsToRest(speed: real, friction: real, elapsed: real): (n: nat)
    requires 0.0 < friction && 0.0 < elapsed
    ensures Abs(speed) <= n as real * (friction * elapsed)
  {
    var step := friction * elapsed;
    var q := Abs(speed) / step;
    var n := q.Floor + 1;
    assert q < n as real;
    assert Abs(speed) == q * step;
    assert q * step <= n as real * step;
    n
  }

  /** With positive friction and frame time the wheel stops within
      StepsToRest frames and stays stopped on every later frame. */
  lemma ComesToRest(speed: real, friction: real, elapsed: real, m: nat)
    requires 0.0 < friction && 0.0 < elapsed
    requires StepsToRest(speed, friction, elapsed) <= m
    ensures Coast(speed, friction, elapsed, m) == 0.0
  {
    var n := StepsToRest(speed, friction, elapsed);
    assert n as real * (friction * elapsed) <= m as real * (friction * elapsed);
    RestWithin(speed, friction, elapsed, m);
  }

  /** Total angular width of the first k segments. */
  function WidthBefore(segs: seq<Segment>, k: nat): real
    requires k <= |segs|
    decreases k
  {
    if k == 0 then 0.0 else WidthBefore(segs, k - 1) + segs[k - 1].width
  }

  /** k segments of equal width w cover k * w radians. */
  lemma {:induction false} WidthBeforeUniform(segs: seq<Segment>, w: real, k: nat)
    requires k <= |segs|
    requires forall i :: 0 <= i < |segs| ==> segs[i].width == w
    ensures WidthBefore(segs, k) == k as real * w
    decreases k
  {
    if k > 0 {
      WidthBeforeUniform(segs, w, k - 1);
    }
  }

  /** Distance from the hub of text line j of a segment. */
  function LineDistance(radius: real, j: nat): real
  {
    radius - RimMargin - LineSpacing * (j + 1) as real
  }

  /** Where render puts each line of `text` for a segment bisected by `center`:
      line j at LineDistance(radius, j), turned a quarter turn past the bisector. */
  function Placements(text: seq<string>, center: real, radius: real): (r: seq<TextPlacement>)
    ensures |r| == |text|
  {
    seq(|text|, j requires 0 <= j < |text| =>
      TextPlacement(text[j], LineDistance(radius, j), center + Pi / 2.0))
  }

  /** The sector render computes for segment k of `segs` when the wheel is at
      `angle`: it starts after the widths of the segments before it. */
  function SectorAt(segs: seq<Segment>, angle: real, radius: real, k: nat): Sector
    requires k < |segs|
  {
    var start := angle + WidthBefore(segs, k);
    var end := start + segs[k].width;
    var center := (start + end) / 2.0;
    Sector(start, end, center, Placements(segs[k].text, center, radius))
  }

  /** Consecutive sectors share a boundary, each bisector lies midway in its
      span, and the last sector ends after the total width of all segments. */
  lemma {:induction false} SectorsTile(segs: seq<Segment>, angle: real, radius: real, k: nat)
    requires k < |segs|
    ensures SectorAt(segs, angle, radius, k).end - SectorAt(segs, angle, radius, k).start == segs[k].width
    ensures 0.0 <= segs[k].width ==>
              SectorAt(segs, angle, radius, k).start <= SectorAt(segs, angle, radius, k).center
                <= SectorAt(segs, angle, radius, k).end
    ensures k + 1 < |segs| ==> SectorAt(segs, angle, radius, k).end == SectorAt(segs, angle, radius, k + 1).start
    ensures k + 1 == |segs| ==> SectorAt(segs, angle, radius, k).end == angle + WidthBefore(segs, |segs|)
  {
  }

  /** The segment table the wheel starts with: eight wedges of a quarter of pi. */
  function DefaultSegments(): (r: seq<Segment>)
    ensures |r| == 8
    ensures forall i :: 0 <= i < |r| ==> r[i].width == Pi / 4.0 && 2 <= |r[i].text| <= 4
  {
    [ Segment(Pi / 4.0, "#e9967a", ["Yes, click", "OK."]),
      Segment(Pi / 4.0, "#1e90ff", ["Is the chord", "plugged in?"]),
      Segment(Pi / 4.0, "#32cd32", ["Have you tried", "restarting", "your", "computer?"]),
      Segment(Pi / 4.0, "#9370d8", ["OK, let me", "just google", "that for", "you."]),
      Segment(Pi / 4.0, "#ffd700", ["No, it's gone", "forever."]),
      Segment(Pi / 4.0, "#fdf5e6", ["That sounds", "like a", "hardware", "problem."]),
      Segment(Pi / 4.0, "#ffa500", ["It's a scam,", "just delete", "it."]),
      Segment(Pi / 4.0, "#e0ffff", ["Have you tried", "changing your", "password?"]) ]
  }

  /** The eight wedges of the default table cover the full circle. */
  lemma DefaultSegmentsCoverCircle()
    ensures WidthBefore(DefaultSegments(), 8) == 2.0 * Pi
  {
    WidthBeforeUniform(DefaultSegments(), Pi / 4.0, 8);
  }

  class Wheel {
    var angle: real
    var speed: real
    var x: real
    var y: real
    var radius: real
    var friction: real
    var segments: seq<Segment>
    /** Set by the editor; the source never initialises it, so it starts falsy. */
    var editMode: bool

    constructor (x: real, y: real, radius: real)
      ensures angle == 0.0 && speed == 0.0
      ensures this.x == x && this.y == y && this.radius == radius
      ensures friction == Friction && segments == DefaultSegments()
      ensures !editMode
    {
      angle := 0.0;
      speed := 0.0;
      this.x := x;
      this.y := y;
      this.radius := radius;
      friction := Friction;
      segments := DefaultSegments();
      editMode := false;
    }

    /** One physics step of `elapsed` ms: move by the current speed, then decay it. */
    method Update(elapsed: real)
      modifies this`angle, this`speed
      ensures angle == old(angle) + old(speed) * elapsed
      ensures speed == Decayed(old(speed), friction, elapsed)
      ensures old(speed) == 0.0 ==> angle == old(angle) && speed == 0.0
      ensures x == old(x) && y == old(y) && radius == old(radius)
      ensures friction == old(friction) && segments == old(segments) && editMode == old(editMode)
    {
      if speed != 0.0 {
        angle := angle + speed * elapsed;
        if speed < 0.0 {
          speed := speed + friction * elapsed;
          if speed > 0.0 { speed := 0.0; }
        } else if speed > 0.0 {
          speed := speed - friction * elapsed;
          if speed < 0.0 { speed := 0.0; }
        }
      }
    }

    /** The text lines render draws for one segment whose bisector is `centerAngle`. */
    method PlaceText(text: seq<string>, centerAngle: real) returns (lines: seq<TextPlacement>)
      ensures lines == Placements(text, centerAngle, radius)
    {
      var distance := radius - RimMargin;
      lines := [];
      var j := 0;
      while j < |text|
        invariant 0 <= j <= |text|
        invariant distance == radius - RimMargin - LineSpacing * j as real
        invariant |lines| == j
        invariant forall m :: 0 <= m < j ==>
                    lines[m] == TextPlacement(text[m], LineDistance(radius, m), centerAngle + Pi / 2.0)
      {
        distance := distance - LineSpacing;
        lines := lines + [TextPlacement(text[j], distance, centerAngle + Pi / 2.0)];
        j := j + 1;
      }
    }

    /**
     The sectors render fills, in order: each starts where the previous one
     ended, the first at the wheel's angle, and each spans its segment's width.
     */
    method Layout() returns (sectors: seq<Sector>)
      ensures |sectors| == |segments|
      ensures forall i :: 0 <= i < |sectors| ==> sectors[i] == SectorAt(segments, angle, radius, i)
      ensures forall i :: 0 <= i < |sectors| - 1 ==> sectors[i].end == sectors[i + 1].start
    {
      var startAngle := angle;
      var endAngle := startAngle;
      sectors := [];
      var i := 0;
      while i < |segments|
        invariant 0 <= i <= |segments|
        invariant |sectors| == i
        invariant endAngle == startAngle == angle + WidthBefore(segments, i)
        invariant forall k :: 0 <= k < i ==> sectors[k] == SectorAt(segments, angle, radius, k)
      {
        endAngle := endAngle + segments[i].width;
        var centerAngle := (endAngle - startAngle) / 2.0 + startAngle;
        var lines := PlaceText(segments[i].text, centerAngle);
        var sector := Sector(startAngle, endAngle, centerAngle, lines);
        sectors := sectors + [sector];
        startAngle := endAngle;
        i := i + 1;
      }
      forall k | 0 <= k < |sectors| - 1
        ensures sectors[k].end == sectors[k + 1].start
      {
        SectorsTile(segments, angle, radius, k);
      }
    }
  }
}
