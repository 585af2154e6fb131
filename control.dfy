/**
 Model of the controller (js/control.js): the drag state machine that lets the
 pointer turn the wheel and fling it on release, and the per-frame step that
 advances the wheel's physics by the time since the previous frame.
 */
module Control {
  import opened Spinner
  import Edit

  /** The largest speed, in radians per ms, a release hands to the wheel. */
  const MaxSpeed: real := 0.020

  datatype Option<T> = None | Some(value: T)

  /** A pointer position relative to the canvas. */
  datatype Point = Point(x: real, y: real)

  /**
   The pointer events the controller binds on the canvas. A move carries the
   angle the pointer has turned since the drag started (`delta`) and the speed
   sampled from it (`sample`), both computed by the host.
   */
  datatype PointerEvent =
    | MouseDown(pos: Point)
    | MouseUp
    | MouseMove(delta: real, sample: real)
    | MouseOut
    | TouchStart(pos: Point)
    | TouchEnd
    | TouchMove(delta: real, sample: real)
    | TouchCancel

  /** The controller's drag fields together with the two wheel fields it writes. */
  datatype DragState = DragState(
    dragging: bool,
    clickPos: Option<Point>,
    origAngle: Option<real>,
    speed: real,
    wheelAngle: real,
    wheelSpeed: real)

  /** The drag origin is recorded exactly while a drag is in progress. */
  predicate Consistent(s: DragState)
  {
    s.clickPos.Some? == s.dragging && s.origAngle.Some? == s.dragging
  }

  /** The release speed: first capped at max, then floored at -max. */
  function Clamp(v: real, max: real): (r: real)
    ensures 0.0 <= max ==> -max <= r <= max
    ensures -max <= v <= max ==> r == v
    ensures 0.0 <= max && v > max ==> r == max
    ensures 0.0 <= max && v < -max ==> r == -max
    ensures 0.0 <= max ==> (v >= 0.0 ==> r >= 0.0) && (v <= 0.0 ==> r <= 0.0)
    ensures 0.0 <= max ==> Abs(r) <= Abs(v)
  {
    var capped := if v > max then max else v;
    if capped < -1.0 * max then -1.0 * max else capped
  }

  /** Pressing on the wheel grabs it where it stands and stops it. */
  function AfterStartDrag(s: DragState, pos: Point): (r: DragState)
    ensures Consistent(r) && r.dragging
    ensures r.origAngle == Some(s.wheelAngle) && r.clickPos == Some(pos)
    ensures r.wheelSpeed == 0.0 && r.wheelAngle == s.wheelAngle && r.speed == s.speed
  {
    s.(dragging := true, clickPos := Some(pos), origAngle := Some(s.wheelAngle), wheelSpeed := 0.0)
  }

  /** Moving the pointer while dragging turns the wheel to the drag origin plus
      `delta` and records `sample` as the speed; otherwise it changes nothing. */
  function AfterDoDrag(s: DragState, delta: real, sample: real): (r: DragState)
    requires Consistent(s)
    ensures Consistent(r) && r.dragging == s.dragging
    ensures s.dragging ==> r.wheelAngle == s.origAngle.value + delta && r.speed == sample
    ensures s.dragging ==> r.wheelSpeed == s.wheelSpeed && r.origAngle == s.origAngle
    ensures r.clickPos == s.clickPos
    ensures !s.dragging ==> r == s
  {
    if s.dragging then s.(wheelAngle := s.origAngle.value + delta, speed := sample) else s
  }

  /** Releasing ends the drag and hands the clamped last speed to the wheel;
      without a drag in progress it changes nothing. */
  function AfterStopDrag(s: DragState, max: real): (r: DragState)
    ensures Consistent(s) ==> Consistent(r)
    ensures !r.dragging && r.wheelAngle == s.wheelAngle
    ensures !s.dragging ==> r == s
    ensures s.dragging ==> r.clickPos == None && r.origAngle == None
    ensures s.dragging ==> r.speed == r.wheelSpeed == Clamp(s.speed, max)
  {
    if !s.dragging then s
    else
      var v := Clamp(s.speed, max);
      s.(clickPos := None, dragging := false, origAngle := None, speed := v, wheelSpeed := v)
  }

  /** The state change of each canvas event: the mouse and touch bindings. */
  function AfterEvent(s: DragState, e: PointerEvent, max: real): (r: DragState)
    requires Consistent(s)
    ensures e.MouseDown? || e.TouchStart? ==> r.dragging && r.wheelSpeed == 0.0
    ensures e.MouseMove? || e.TouchMove? ==> r.dragging == s.dragging
    ensures e.MouseUp? || e.TouchEnd? || e.MouseOut? || e.TouchCancel? ==> !r.dragging
    ensures r.wheelAngle != s.wheelAngle ==> s.dragging && (e.MouseMove? || e.TouchMove?)
  {
    match e
    case MouseDown(pos) => AfterStartDrag(s, pos)
    case TouchStart(pos) => AfterStartDrag(s, pos)
    case MouseMove(delta, sample) => AfterDoDrag(s, delta, sample)
    case TouchMove(delta, sample) => AfterDoDrag(s, delta, sample)
    case MouseUp => AfterStopDrag(s, max)
    case TouchEnd => AfterStopDrag(s, max)
    case MouseOut => AfterStopDrag(s, max)
    case TouchCancel => AfterStopDrag(s, max)
  }

  /** Every event keeps the drag fields consistent, and after any release
      (including the pointer leaving the canvas) no drag is in progress. */
  lemma EventsKeepConsistent(s: DragState, e: PointerEvent, max: real)
    requires Consistent(s)
    ensures Consistent(AfterEvent(s, e, max))
    ensures e.MouseUp? || e.TouchEnd? || e.MouseOut? || e.TouchCancel? ==>
              !AfterEvent(s, e, max).dragging && AfterEvent(s, e, max) == AfterStopDrag(s, max)
  {
  }

  /** A release from a drag leaves the wheel no faster than max, in the
      direction of the last sampled speed, and the controller agreeing with it. */
  lemma ReleaseIsBounded(s: DragState)
    requires Consistent(s) && s.dragging
    ensures -MaxSpeed <= AfterStopDrag(s, MaxSpeed).wheelSpeed <= MaxSpeed
    ensures AfterStopDrag(s, MaxSpeed).speed == AfterStopDrag(s, MaxSpeed).wheelSpeed
    ensures s.speed >= 0.0 ==> AfterStopDrag(s, MaxSpeed).wheelSpeed >= 0.0
    ensures s.speed <= 0.0 ==> AfterStopDrag(s, MaxSpeed).wheelSpeed <= 0.0
  {
  }

  /** Releasing twice is the same as releasing once. */
  lemma StopDragIdempotent(s: DragState, max: real)
    requires Consistent(s)
    ensures AfterStopDrag(AfterStopDrag(s, max), max) == AfterStopDrag(s, max)
  {
  }

  /** Grab, move by delta, release: the wheel ends at the angle it was grabbed
      at plus delta, spinning at the clamped sampled speed. */
  lemma DragAndFling(s: DragState, pos: Point, delta: real, sample: real)
    ensures AfterStopDrag(AfterDoDrag(AfterStartDrag(s, pos), delta, sample), MaxSpeed).wheelAngle
              == s.wheelAngle + delta
    ensures AfterStopDrag(AfterDoDrag(AfterStartDrag(s, pos), delta, sample), MaxSpeed).wheelSpeed
              == Clamp(sample, MaxSpeed)
  {
  }

  /** startDrag keeps the controller's speed, so a press and release with no
      move in between hands the previous drag's clamped speed to the wheel. */
  lemma ClickWithoutMoveReusesSpeed(s: DragState, pos: Point)
    ensures AfterStopDrag(AfterStartDrag(s, pos), MaxSpeed).wheelSpeed == Clamp(s.speed, MaxSpeed)
    ensures AfterStopDrag(AfterStartDrag(s, pos), MaxSpeed).wheelAngle == s.wheelAngle
  {
  }

  class Controller {
    const wheel: Wheel
    const editor: Edit.Editor
    const maxSpeed: real
    var speed: real
    var clickPos: Option<Point>
    var dragging: bool
    var origAngle: Option<real>
    /** Time of the previous frame, in ms. */
    var lastUpdateTime: int

    /** The drag fields and the wheel fields they drive, as one value. */
    ghost function State(): DragState
      reads this, wheel
    {
      DragState(dragging, clickPos, origAngle, speed, wheel.angle, wheel.speed)
    }

    ghost predicate Valid()
      reads this, wheel, editor
    {
      Consistent(State()) && maxSpeed == MaxSpeed && editor.wheel == wheel && editor.Valid()
    }

    /** Builds the wheel at (600, 420) with radius 400 and its editor; `now` is
        the clock reading taken at start-up. */
    constructor (now: int)
      ensures Valid() && fresh(wheel) && fresh(editor)
      ensures lastUpdateTime == now && !dragging && speed == 0.0
      ensures wheel.angle == 0.0 && wheel.speed == 0.0 && wheel.segments == DefaultSegments()
      ensures wheel.x == 600.0 && wheel.y == 420.0 && wheel.radius == 400.0
      ensures wheel.friction == Friction && !wheel.editMode
    {
      lastUpdateTime := now;
      var w := new Wheel(600.0, 420.0, 400.0);
      wheel := w;
      maxSpeed := MaxSpeed;
      speed := 0.0;
      clickPos := None;
      dragging := false;
      origAngle := None;
      editor := new Edit.Editor(w);
    }

    method StartDrag(pos: Point)
      modifies this`clickPos, this`dragging, this`origAngle, wheel`speed
      ensures State() == AfterStartDrag(old(State()), pos)
    {
      clickPos := Some(pos);
      dragging := true;
      origAngle := Some(wheel.angle);
      wheel.speed := 0.0;
    }

    /** `delta` stands for the angle between the pointer and the click position
        seen from the hub; `sample` for the speed computed from it. */
    method DoDrag(delta: real, sample: real)
      requires Consistent(State())
      modifies this`speed, wheel`angle
      ensures State() == AfterDoDrag(old(State()), delta, sample)
    {
      if dragging {
        wheel.angle := origAngle.value + delta;
        speed := sample;
      }
    }

    method StopDrag()
      modifies this`clickPos, this`dragging, this`origAngle, this`speed, wheel`speed
      ensures State() == AfterStopDrag(old(State()), maxSpeed)
    {
      if !dragging {
        return;
      }
      clickPos := None;
      dragging := false;
      origAngle := None;
      if speed > maxSpeed {
        speed := maxSpeed;
      }
      if speed < -1.0 * maxSpeed {
        speed := -1.0 * maxSpeed;
      }
      wheel.speed := speed;
    }

    /** Routes a canvas event to its handler, as the bindings made at load do. */
    method Handle(e: PointerEvent)
      requires Valid()
      modifies this`clickPos, this`dragging, this`origAngle, this`speed, wheel`angle, wheel`speed
      ensures Valid()
      ensures State() == AfterEvent(old(State()), e, MaxSpeed)
    {
      match e
      case MouseDown(pos) => StartDrag(pos);
      case TouchStart(pos) => StartDrag(pos);
      case MouseMove(delta, sample) => DoDrag(delta, sample);
      case TouchMove(delta, sample) => DoDrag(delta, sample);
      case MouseUp => StopDrag();
      case TouchEnd => StopDrag();
      case MouseOut => StopDrag();
      case TouchCancel => StopDrag();
    }

    /** One animation frame at clock reading `now`: advance the wheel by the
        time since the previous frame, remember `now`, and lay out the sectors
        that are then drawn. */
    method Render(now: int) returns (sectors: seq<Sector>)
      modifies this`lastUpdateTime, wheel`angle, wheel`speed
      ensures lastUpdateTime == now
      ensures wheel.angle == old(wheel.angle) + old(wheel.speed) * (now - old(lastUpdateTime)) as real
      ensures wheel.speed == Decayed(old(wheel.speed), wheel.friction, (now - old(lastUpdateTime)) as real)
      ensures |sectors| == |wheel.segments|
      ensures forall i :: 0 <= i < |sectors| ==> sectors[i] == SectorAt(wheel.segments, wheel.angle, wheel.radius, i)
    {
      var delay := now - lastUpdateTime;
      wheel.Update(delay as real);
      sectors := wheel.Layout();
      lastUpdateTime := now;
    }
  }
}
