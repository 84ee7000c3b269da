/**
  The on-screen touch joystick of src/Joystick.jsx: three touch handlers that
  track one finger by its identifier, the measured centre of the joystick
  disc, and the cursor offset drawn from the finger's drag, whose length is
  linear up to 22 pixels, logarithmic beyond and capped at 49.

  The browser's `Math` functions are not modelled: `sin`, `cos`, `atan2`,
  `hypot`, `log` and `PI` are given as an uninterpreted `MathLib`, and the
  properties that need facts about them take those facts as hypotheses.
 */
module JoystickInput {
  import opened Common

  /** A screen point in client pixels. */
  datatype Point = Point(x: real, y: real)

  /** One entry of a touch event's `changedTouches` list. */
  datatype Touch = Touch(identifier: int, clientX: real, clientY: real)

  /** The joystick element's bounding client rectangle. */
  datatype Rect = Rect(left: real, top: real, width: real, height: real)

  datatype MathLib = MathLib(
    pi: real,
    sin: real -> real,
    cos: real -> real,
    atan2: (real, real) -> real,
    hypot: (real, real) -> real,
    ln: real -> real)

  /** Drag distances up to this many pixels move the cursor one to one. */
  const DeadZone := 22.0
  /** Beyond the dead zone each unit of log distance adds this many pixels. */
  const LogGain := 5.0
  /** The cursor never moves further than this from the centre. */
  const MaxRadius := 49.0

  function PointOf(t: Touch): Point {
    Point(t.clientX, t.clientY)
  }

  /**
    `Array.prototype.find` over the changed touches: the first touch whose
    identifier equals the recorded one. An unset identifier (`undefined`)
    matches no touch.
   */
  function FindTouch(touches: seq<Touch>, id: Option<int>): (r: Option<Touch>)
    ensures r.Some? ==> r.value in touches && id == Some(r.value.identifier)
    ensures r.None? <==> forall k :: 0 <= k < |touches| ==> id != Some(touches[k].identifier)
    ensures r.Some? ==> exists k :: 0 <= k < |touches| && touches[k] == r.value &&
                          forall j :: 0 <= j < k ==> id != Some(touches[j].identifier)
  {
    if |touches| == 0 then None
    else if id == Some(touches[0].identifier) then Some(touches[0])
    else
      var r := FindTouch(touches[1..], id);
      assert forall k :: 1 <= k < |touches| ==> touches[k] == touches[1..][k - 1];
      r
  }

  /** The centre of a rectangle: half its width and half its height in from the top-left corner. */
  function RectCenter(b: Rect): (c: Point)
    ensures c.x - b.left == (b.left + b.width) - c.x
    ensures c.y - b.top == (b.top + b.height) - c.y
  {
    Point(b.left + b.width * 0.5, b.top + b.height * 0.5)
  }

  /**
    The cursor radius for a drag of length `distance`: the distance itself
    inside the dead zone, `22 + 5 ln(distance - 22)` beyond it, and never
    more than 49.
   */
  function Radius(distance: real, ln: real -> real): (r: real)
    ensures r <= MaxRadius
    ensures distance <= DeadZone ==> r == distance
    ensures distance > DeadZone ==> r == Min(DeadZone + ln(distance - DeadZone) * LogGain, MaxRadius)
  {
    var radius := if distance > DeadZone then DeadZone + ln(distance - DeadZone) * LogGain else distance;
    if radius > MaxRadius then MaxRadius else radius
  }

  /** Inside the dead zone the response is strictly increasing. */
  lemma RadiusLinearInDeadZone(d1: real, d2: real, ln: real -> real)
    requires d1 < d2 <= DeadZone
    ensures Radius(d1, ln) < Radius(d2, ln)
  {
  }

  /**
    The cap bounds the radius from above only. Just past the dead zone the
    logarithm is very negative: with the natural logarithm, ln(10^-7) is
    about -16.1, so a drag of 22.0000001 pixels gives a radius below -49
    and the cursor jumps to the opposite side, further out than the cap.
   */
  lemma RadiusUnboundedBelow(ln: real -> real)
    requires ln(1.0 / 10000000.0) < -15.0
    ensures Radius(DeadZone + 1.0 / 10000000.0, ln) < -MaxRadius
  {
  }

  /** The angle the cursor effect computes, `-atan2(dy, dx)`, turned a quarter. */
  function CursorAngle(m: MathLib, dx: real, dy: real): real {
    -m.atan2(dy, dx) + m.pi * 0.5
  }

  /**
    The cursor effect: the offset from the disc's centre that is written as
    the cursor position, `radius` along the drag direction. A finger resting
    on the centre puts the cursor on the centre whatever the trigonometry.
   */
  function CursorOffset(m: MathLib, center: Point, current: Point): (c: Point)
    ensures m.hypot(current.y - center.y, current.x - center.x) == 0.0 ==> c == Point(0.0, 0.0)
  {
    var dx, dy := current.x - center.x, current.y - center.y;
    var distance := m.hypot(dy, dx);
    var radius := Radius(distance, m.ln);
    var angle := CursorAngle(m, dx, dy);
    Point(m.sin(angle) * radius, m.cos(angle) * radius)
  }

  /**
    The facts about the `Math` functions that make the cursor point along
    the drag: a positive length, and `sin`/`cos` of the turned angle equal
    to the drag's direction cosines (true of the real functions, since
    sin(-atan2(dy,dx) + pi/2) = dx/d and cos(-atan2(dy,dx) + pi/2) = dy/d).
   */
  predicate PolarConsistent(m: MathLib, dx: real, dy: real) {
    var d := m.hypot(dy, dx);
    d > 0.0 && m.sin(CursorAngle(m, dx, dy)) * d == dx && m.cos(CursorAngle(m, dx, dy)) * d == dy
  }

  /**
    The cursor points along the drag, at the response radius: its offset
    times the drag length equals the drag times the radius. In the dead
    zone it sits exactly under the finger.
   */
  lemma CursorAlongDrag(m: MathLib, center: Point, current: Point)
    requires PolarConsistent(m, current.x - center.x, current.y - center.y)
    ensures var dx, dy := current.x - center.x, current.y - center.y;
            var d := m.hypot(dy, dx);
            var r := Radius(d, m.ln);
            CursorOffset(m, center, current).x * d == dx * r &&
            CursorOffset(m, center, current).y * d == dy * r
    ensures var dx, dy := current.x - center.x, current.y - center.y;
            m.hypot(dy, dx) <= DeadZone ==> CursorOffset(m, center, current) == Point(dx, dy)
  {
    var dx, dy := current.x - center.x, current.y - center.y;
    var d := m.hypot(dy, dx);
    var r := Radius(d, m.ln);
    var s, c := m.sin(CursorAngle(m, dx, dy)), m.cos(CursorAngle(m, dx, dy));
    assert s * r * d == s * d * r;
    assert c * r * d == c * d * r;
    if d <= DeadZone {
      assert s * d == dx && c * d == dy;
    }
  }

  /**
    The touch state of the component: whether a finger is down, the
    identifier of the tracked finger (a ref, `undefined` until the first
    touch), the disc's measured centre and the tracked finger's position.
   */
  class Joystick {
    var active: bool
    var identifier: Option<int>
    var center: Point
    var currentCenter: Point

    /** While a finger is down its identifier is recorded. */
    ghost predicate Valid()
      reads this
    {
      active ==> identifier.Some?
    }

    constructor ()
      ensures Valid()
      ensures !active && identifier == None
      ensures center == Point(0.0, 0.0) && currentCenter == Point(0.0, 0.0)
    {
      active := false;
      identifier := None;
      center := Point(0.0, 0.0);
      currentCenter := Point(0.0, 0.0);
    }

    /**
      The centre effect: when the element is mounted its bounding rectangle
      gives the centre; otherwise nothing changes.
     */
    method MeasureCenter(bounds: Option<Rect>)
      requires Valid()
      modifies this`center
      ensures Valid()
      ensures bounds.Some? ==> center == RectCenter(bounds.value)
      ensures bounds.None? ==> center == old(center)
    {
      if bounds.Some? {
        center := RectCenter(bounds.value);
      }
    }

    /**
      `touchStart`: the first changed touch, if any, becomes the tracked
      finger and the current position; with no changed touch nothing changes.
     */
    method TouchStart(changed: seq<Touch>)
      requires Valid()
      modifies this`active, this`identifier, this`currentCenter
      ensures Valid()
      ensures |changed| == 0 ==> unchanged(this)
      ensures |changed| > 0 ==>
                && active
                && identifier == Some(changed[0].identifier)
                && currentCenter == PointOf(changed[0])
    {
      if |changed| > 0 {
        var touch := changed[0];
        active := true;
        identifier := Some(touch.identifier);
        currentCenter := PointOf(touch);
      }
    }

    /**
      `touchmove`: only the tracked finger moves the current position;
      other fingers are ignored.
     */
    method TouchMove(changed: seq<Touch>)
      requires Valid()
      modifies this`currentCenter
      ensures Valid()
      ensures FindTouch(changed, identifier).Some? ==>
                currentCenter == PointOf(FindTouch(changed, identifier).value)
      ensures FindTouch(changed, identifier).None? ==> currentCenter == old(currentCenter)
    {
      var touch := FindTouch(changed, identifier);
      if touch.Some? {
        currentCenter := PointOf(touch.value);
      }
    }

    /**
      `touchend`: lifting the tracked finger deactivates the joystick and
      puts the current position back on the centre; lifting any other
      finger changes nothing. An active joystick always has a tracked
      finger, so it ends exactly when that finger is among the changed ones.
     */
    method TouchEnd(changed: seq<Touch>)
      requires Valid()
      modifies this`active, this`currentCenter
      ensures Valid()
      ensures FindTouch(changed, identifier).Some? ==> !active && currentCenter == center
      ensures FindTouch(changed, identifier).None? ==> unchanged(this)
      ensures old(active) ==>
                (!active <==> exists k :: 0 <= k < |changed| && changed[k].identifier == identifier.value)
    {
      var touch := FindTouch(changed, identifier);
      if touch.Some? {
        active := false;
        currentCenter := Point(center.x, center.y);
      }
    }
  }

  /**
    A whole gesture: the disc is measured, a finger touches down, moves and
    is lifted. Wherever it moved, the joystick ends inactive with the
    cursor back on the centre (given only that `hypot(0, 0)` is 0).
   */
  method Gesture(m: MathLib, bounds: Option<Rect>, finger: Touch, move: seq<Touch>)
    returns (active: bool, cursor: Point)
    requires m.hypot(0.0, 0.0) == 0.0
    ensures !active
    ensures cursor == Point(0.0, 0.0)
  {
    var j := new Joystick();
    j.MeasureCenter(bounds);
    j.TouchStart([finger]);
    j.TouchMove(move);
    j.TouchEnd([finger]);
    active := j.active;
    cursor := CursorOffset(m, j.center, j.currentCenter);
  }
}
