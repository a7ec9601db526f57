/** The idle-object field: decorative page elements that appear after five
    seconds without pointer movement or scrolling, are pushed away from the
    last known pointer position when it is near, and otherwise ease back to
    where the page placed them. */
module IdleObjects {
  import opened Common

  /** Milliseconds of inactivity after which the objects wake up. */
  const IdleThreshold: int := 5000
  /** Pointer distance below which an object is repelled. */
  const RepelRadius: real := 200.0
  /** Length of the offset given to an object at distance zero. */
  const RepelStrength: real := 20.0
  /** Fraction of the remaining offset removed per frame while easing back. */
  const AttractStrength: real := 0.05

  /** What a frame rewrites on an object: its `translate(...)` offset from the
      rest position and whether it carries the `active` class. */
  datatype IdleState = IdleState(offset: Point, active: bool)

  /** Placement of an object as percentages of the viewport (`style.left`,
      `style.top`). */
  datatype Placement = Placement(left: real, top: real)

  /** More than the threshold has passed since the last pointer move or
      scroll. */
  predicate IsIdle(now: int, lastActivity: int) {
    now - lastActivity > IdleThreshold
  }

  /** A percentage in 0..100 of a non-negative length lies within it. */
  lemma PercentOf(t: real, size: real)
    ensures 0.0 <= t <= 100.0 && 0.0 <= size ==> 0.0 <= t / 100.0 * size <= size
  {
    if 0.0 <= t <= 100.0 && 0.0 <= size {
      assert t / 100.0 * size <= 1.0 * size;
    }
  }

  /** The rest position in pixels computed from a percentage placement; a
      placement within 0..100 lands inside the viewport. */
  function RestPosition(at: Placement, innerWidth: real, innerHeight: real): (r: Point)
    ensures at.left == 0.0 ==> r.x == 0.0
    ensures at.left == 100.0 ==> r.x == innerWidth
    ensures 0.0 <= at.left <= 100.0 && 0.0 <= innerWidth ==> 0.0 <= r.x <= innerWidth
    ensures 0.0 <= at.top <= 100.0 && 0.0 <= innerHeight ==> 0.0 <= r.y <= innerHeight
  {
    PercentOf(at.left, innerWidth);
    PercentOf(at.top, innerHeight);
    Point(at.left / 100.0 * innerWidth, at.top / 100.0 * innerHeight)
  }

  /** Where an object is drawn: its rest position moved by its offset. */
  function Position(rest: Point, s: IdleState): Point {
    Point(rest.x + s.offset.x, rest.y + s.offset.y)
  }

  /** The vector from the object to the pointer. */
  function ToPointer(rest: Point, s: IdleState, m: Point): Point {
    Point(m.x - Position(rest, s).x, m.y - Position(rest, s).y)
  }

  /** The pointer is known and closer to the drawn object than the radius. */
  predicate Repelled(rest: Point, s: IdleState, mouse: Option<Point>, sqrt: real -> real) {
    mouse.Some? && Length(ToPointer(rest, s, mouse.value), sqrt) < RepelRadius
  }

  /** `(200 - distance) / 200`: one at the pointer, falling to zero at the
      edge of the radius. */
  function ForceFactor(distance: real): (f: real)
    ensures 0.0 <= distance < RepelRadius ==> 0.0 < f <= 1.0
    ensures distance == 0.0 ==> f == 1.0
  {
    (RepelRadius - distance) / RepelRadius
  }

  /** One easing step of one offset component towards zero. */
  function Ease(v: real): real {
    v + (0.0 - v) * AttractStrength
  }

  /** The offset that replaces the old one when the object is repelled:
      `RepelStrength * f` along the direction opposite to `c`. */
  function Repulsion(c: Point, f: real): Point {
    Point(-c.x * RepelStrength * f, -c.y * RepelStrength * f)
  }

  /** One frame of one object in `updateIdleObjects`: during activity it is
      hidden and snapped back; when idle it is shown and either repelled or
      eased back. */
  function StepObject(rest: Point, s: IdleState, idle: bool, mouse: Option<Point>, sqrt: real -> real)
    : (r: IdleState)
    ensures r.active == idle
    ensures !idle ==> r.offset == Point(0.0, 0.0)
    ensures idle && !Repelled(rest, s, mouse, sqrt) ==>
      r.offset == Point(Ease(s.offset.x), Ease(s.offset.y))
  {
    if !idle then
      IdleState(Point(0.0, 0.0), false)
    else if Repelled(rest, s, mouse, sqrt) then
      var v := ToPointer(rest, s, mouse.value);
      var distance := Length(v, sqrt);
      IdleState(Repulsion(Direction(v.x, v.y, distance), ForceFactor(distance)), true)
    else
      IdleState(Point(Ease(s.offset.x), Ease(s.offset.y)), true)
  }

  // ---------------------------------------------------------------------
  // Easing back

  /** Easing keeps 95% of a component: its sign is kept and its size never
      grows, and strictly shrinks unless it is already zero. */
  lemma EaseKeepsSignAndShrinks(v: real)
    ensures Ease(v) == 0.95 * v
    ensures (0.0 < v ==> 0.0 < Ease(v)) && (v < 0.0 ==> Ease(v) < 0.0) && (v == 0.0 ==> Ease(v) == 0.0)
    ensures Abs(Ease(v)) <= Abs(v)
    ensures v != 0.0 ==> Abs(Ease(v)) < Abs(v)
  {
  }

  /** With the pointer away, an idle object at offset (10, 10) moves to
      (9.5, 9.5) in one frame. */
  lemma EaseExample(rest: Point, sqrt: real -> real)
    ensures StepObject(rest, IdleState(Point(10.0, 10.0), false), true, None, sqrt)
         == IdleState(Point(9.5, 9.5), true)
  {
  }

  /** `b` to the power `n`. */
  function Power(b: real, n: nat): real
    decreases n
  {
    if n == 0 then 1.0 else b * Power(b, n - 1)
  }

  /** `n` idle frames with the pointer held at `mouse`. */
  function IdleFrames(rest: Point, s: IdleState, mouse: Option<Point>, sqrt: real -> real, n: nat): IdleState
    decreases n
  {
    if n == 0 then s else IdleFrames(rest, StepObject(rest, s, true, mouse, sqrt), mouse, sqrt, n - 1)
  }

  /** None of the first `n` idle frames finds the pointer within the radius. */
  predicate NeverRepelled(rest: Point, s: IdleState, mouse: Option<Point>, sqrt: real -> real, n: nat)
    decreases n
  {
    n == 0 ||
    (!Repelled(rest, s, mouse, sqrt) &&
     NeverRepelled(rest, StepObject(rest, s, true, mouse, sqrt), mouse, sqrt, n - 1))
  }

  /** Without a known pointer no frame is repelled. */
  lemma {:induction false} NoPointerNeverRepels(rest: Point, s: IdleState, sqrt: real -> real, n: nat)
    ensures NeverRepelled(rest, s, None, sqrt, n)
    decreases n
  {
    if n > 0 {
      NoPointerNeverRepels(rest, StepObject(rest, s, true, None, sqrt), sqrt, n - 1);
    }
  }

  /** One more easing step is one more factor of 0.95. */
  lemma PowerStep(n: nat, v: real)
    requires 0 < n
    ensures Power(0.95, n - 1) * Ease(v) == Power(0.95, n) * v
  {
    EaseKeepsSignAndShrinks(v);
  }

  /** An offset eased `n` times. */
  function Eased(o: Point, n: nat): Point
    decreases n
  {
    if n == 0 then o else Eased(Point(Ease(o.x), Ease(o.y)), n - 1)
  }

  /** Easing `n` times scales each component by `0.95^n`. */
  lemma {:induction false} EasedIsGeometric(o: Point, n: nat)
    ensures Eased(o, n) == Point(Power(0.95, n) * o.x, Power(0.95, n) * o.y)
    decreases n
  {
    if n > 0 {
      EasedIsGeometric(Point(Ease(o.x), Ease(o.y)), n - 1);
      PowerStep(n, o.x);
      PowerStep(n, o.y);
    }
  }

  /** `n` idle frames that never repel only ease the offset, and leave the
      object active. */
  lemma {:induction false} IdleFramesOnlyEase(rest: Point, s: IdleState, mouse: Option<Point>, sqrt: real -> real, n: nat)
    requires 0 < n && NeverRepelled(rest, s, mouse, sqrt, n)
    ensures IdleFrames(rest, s, mouse, sqrt, n) == IdleState(Eased(s.offset, n), true)
    decreases n
  {
    var t := StepObject(rest, s, true, mouse, sqrt);
    assert t == IdleState(Point(Ease(s.offset.x), Ease(s.offset.y)), true);
    if n > 1 {
      IdleFramesOnlyEase(rest, t, mouse, sqrt, n - 1);
    }
  }

  /** After `n` idle frames in which the pointer stays out of range, each
      offset component is `0.95^n` times what it was: a geometric return that
      never overshoots. */
  lemma IdleFramesDecay(rest: Point, s: IdleState, mouse: Option<Point>, sqrt: real -> real, n: nat)
    requires 0 < n && NeverRepelled(rest, s, mouse, sqrt, n)
    ensures IdleFrames(rest, s, mouse, sqrt, n).offset
         == Point(Power(0.95, n) * s.offset.x, Power(0.95, n) * s.offset.y)
    ensures IdleFrames(rest, s, mouse, sqrt, n).active
  {
    IdleFramesOnlyEase(rest, s, mouse, sqrt, n);
    EasedIsGeometric(s.offset, n);
  }

  /** Before the pointer first moves, an object at rest stays at rest,
      idle or not. */
  lemma AtRestWithoutPointer(rest: Point, s: IdleState, idle: bool, sqrt: real -> real)
    requires s.offset == Point(0.0, 0.0)
    ensures StepObject(rest, s, idle, None, sqrt).offset == Point(0.0, 0.0)
  {
  }

  // ---------------------------------------------------------------------
  // Repulsion

  /** A repelled object's new offset has length `20 * f`, which lies in
      (0, 20]; the old offset is replaced, not added to. */
  lemma RepulsionLength(rest: Point, s: IdleState, m: Point, sqrt: real -> real)
    requires IsSqrt(sqrt) && Repelled(rest, s, Some(m), sqrt)
    ensures var v := ToPointer(rest, s, m);
      var k := RepelStrength * ForceFactor(Length(v, sqrt));
      && Norm2(StepObject(rest, s, true, Some(m), sqrt).offset) == k * k
      && 0.0 < k <= RepelStrength
  {
    var v := ToPointer(rest, s, m);
    var distance := Length(v, sqrt);
    var c := Direction(v.x, v.y, distance);
    var k := RepelStrength * ForceFactor(distance);
    SqrtOfSquares(sqrt, v.x, v.y);
    DirectionIsUnit(v.x, v.y, distance);
    var o := StepObject(rest, s, true, Some(m), sqrt).offset;
    assert o == Point(-(c.x * k), -(c.y * k));
    ScaledSquare(c.x, k);
    ScaledSquare(c.y, k);
    MulOne(c.x * c.x + c.y * c.y, k * k);
  }

  /** The new offset points away from the pointer: its projection on the
      vector towards the pointer is `-20 * f * distance`, never positive. */
  lemma RepulsionPointsAway(rest: Point, s: IdleState, m: Point, sqrt: real -> real)
    requires IsSqrt(sqrt) && Repelled(rest, s, Some(m), sqrt)
    ensures var v := ToPointer(rest, s, m);
      var distance := Length(v, sqrt);
      var o := StepObject(rest, s, true, Some(m), sqrt).offset;
      && o.x * v.x + o.y * v.y == -(RepelStrength * ForceFactor(distance)) * distance
      && o.x * v.x + o.y * v.y <= 0.0
  {
    var v := ToPointer(rest, s, m);
    var distance := Length(v, sqrt);
    var c := Direction(v.x, v.y, distance);
    var k := RepelStrength * ForceFactor(distance);
    SqrtOfSquares(sqrt, v.x, v.y);
    DirectionScales(v.x, v.y, distance);
    DirectionIsUnit(v.x, v.y, distance);
    var o := StepObject(rest, s, true, Some(m), sqrt).offset;
    assert o == Point(-(c.x * k), -(c.y * k));
    ProjectionOfScaledUnit(c, k, distance, v);
  }

  /** `-k c` projected on `d c`, for a unit `c`, is `-k d`. */
  lemma ProjectionOfScaledUnit(c: Point, k: real, d: real, v: Point)
    requires Norm2(c) == 1.0 && c.x * d == v.x && c.y * d == v.y && 0.0 <= k && 0.0 <= d
    ensures -(c.x * k) * v.x + -(c.y * k) * v.y == -k * d
    ensures -(c.x * k) * v.x + -(c.y * k) * v.y <= 0.0
  {
    assert -(c.x * k) * v.x + -(c.y * k) * v.y == -(k * d) * (c.x * c.x + c.y * c.y);
    MulOne(c.x * c.x + c.y * c.y, -(k * d));
    assert 0.0 <= k * d;
  }

  /** An idle object with the pointer `a` pixels to the right of where it is
      drawn, inside the radius, gets the offset `20 * f` straight to the
      left, whatever its offset was. */
  lemma RepulsionAlongAxis(rest: Point, s: IdleState, a: real, sqrt: real -> real)
    requires IsSqrt(sqrt) && 0.0 < a < RepelRadius
    ensures var m := Point(Position(rest, s).x + a, Position(rest, s).y);
      StepObject(rest, s, true, Some(m), sqrt)
         == IdleState(Point(-(RepelStrength * ForceFactor(a)), 0.0), true)
  {
    var m := Point(Position(rest, s).x + a, Position(rest, s).y);
    var v := ToPointer(rest, s, m);
    assert v == Point(a, 0.0);
    SqrtOfSquares(sqrt, a, 0.0);
    RootUnique(Length(v, sqrt), a);
    var distance := Length(v, sqrt);
    assert distance == a && a / a == 1.0;
    assert Direction(v.x, v.y, distance) == Point(1.0, 0.0);
  }

  /** The worked example: an object resting at the origin with the pointer
      at (150, 0) has factor 50/200 and is pushed to (-5, 0). */
  lemma RepulsionExample(rest: Point, s: IdleState, m: Point, sqrt: real -> real)
    requires IsSqrt(sqrt)
    requires rest == Point(0.0, 0.0) && s.offset == Point(0.0, 0.0) && m == Point(150.0, 0.0)
    ensures StepObject(rest, s, true, Some(m), sqrt) == IdleState(Point(-5.0, 0.0), true)
  {
    assert m == Point(Position(rest, s).x + 150.0, Position(rest, s).y);
    RepulsionAlongAxis(rest, s, 150.0, sqrt);
    assert RepelStrength * ForceFactor(150.0) == 5.0;
  }

  // ---------------------------------------------------------------------
  // Bounded offsets

  /** The offset stays within `RepelStrength` of the rest position: every
      frame keeps `|offset|^2 <= 400`, because repulsion replaces the offset
      and easing only shrinks it. */
  lemma StepKeepsOffsetBounded(rest: Point, s: IdleState, idle: bool, mouse: Option<Point>, sqrt: real -> real)
    requires IsSqrt(sqrt) && Norm2(s.offset) <= RepelStrength * RepelStrength
    ensures Norm2(StepObject(rest, s, idle, mouse, sqrt).offset) <= RepelStrength * RepelStrength
  {
    if idle && Repelled(rest, s, mouse, sqrt) {
      RepulsionLength(rest, s, mouse.value, sqrt);
      var k := RepelStrength * ForceFactor(Length(ToPointer(rest, s, mouse.value), sqrt));
      assert k * k <= RepelStrength * k <= RepelStrength * RepelStrength;
    } else if idle {
      var x, y := s.offset.x, s.offset.y;
      assert Ease(x) * Ease(x) == 0.9025 * (x * x);
      assert Ease(y) * Ease(y) == 0.9025 * (y * y);
      SquareNonNegative(x);
      SquareNonNegative(y);
    }
  }

  // ---------------------------------------------------------------------
  // The mutable objects

  /** One idle element: its rest position is fixed when the page loads; each
      frame rewrites its transform and its `active` class. */
  class IdleObject {
    const rest: Point
    var translateX: real
    var translateY: real
    var active: bool

    function State(): IdleState
      reads this
    {
      IdleState(Point(translateX, translateY), active)
    }

    /** The start-up pass over the idle objects: the rest position from the
        percentage placement and the viewport, and a zero transform. */
    constructor (at: Placement, innerWidth: real, innerHeight: real)
      ensures rest == RestPosition(at, innerWidth, innerHeight)
      ensures State() == IdleState(Point(0.0, 0.0), false)
    {
      rest := Point(at.left / 100.0 * innerWidth, at.top / 100.0 * innerHeight);
      translateX, translateY := 0.0, 0.0;
      active := false;
    }

    /** The body of either `forEach` in `updateIdleObjects` for this object. */
    method Update(idle: bool, mouse: Option<Point>, sqrt: real -> real)
      modifies this
      ensures State() == StepObject(rest, old(State()), idle, mouse, sqrt)
    {
      if idle {
        ghost var before := State();
        active := true;
        var currentX := rest.x + translateX;
        var currentY := rest.y + translateY;
        if mouse.Some? && Length(Point(mouse.value.x - currentX, mouse.value.y - currentY), sqrt) < RepelRadius {
          var dx := mouse.value.x - currentX;
          var dy := mouse.value.y - currentY;
          var distance := Length(Point(dx, dy), sqrt);
          assert Point(dx, dy) == ToPointer(rest, before, mouse.value);
          var c := Direction(dx, dy, distance);
          var forceFactor := ForceFactor(distance);
          Move(Repulsion(c, forceFactor));
        } else {
          assert !Repelled(rest, before, mouse, sqrt);
          Move(Point(Ease(translateX), Ease(translateY)));
        }
      } else {
        active := false;
        translateX, translateY := 0.0, 0.0;
      }
    }

    /** Writing `translate(x px, y px)` into the transform. */
    method Move(to: Point)
      modifies this
      ensures State() == old(State()).(offset := to)
    {
      translateX, translateY := to.x, to.y;
    }
  }

  /** The idle objects together with the page-wide pointer position and the
      activity timer that the document's `mousemove` and `scroll` handlers
      maintain. */
  class IdleField {
    var objects: seq<IdleObject>
    /** Last pointer position in viewport (client) coordinates; `None` until
        the pointer first moves. */
    var mouse: Option<Point>
    var lastActivityTime: int

    /** Every entry of `objects` is a different element. */
    ghost predicate Valid()
      reads this
    {
      forall i, j :: 0 <= i < j < |objects| ==> objects[i] != objects[j]
    }

    /** Page start-up: one object per placement, resting and hidden, no
        known pointer, and the activity timer started now. */
    constructor (placements: seq<Placement>, innerWidth: real, innerHeight: real, now: int)
      ensures Valid()
      ensures |objects| == |placements|
      ensures forall i :: 0 <= i < |objects| ==>
        && objects[i].rest == RestPosition(placements[i], innerWidth, innerHeight)
        && objects[i].State() == IdleState(Point(0.0, 0.0), false)
      ensures mouse == None && lastActivityTime == now
    {
      var made: seq<IdleObject> := [];
      for i := 0 to |placements|
        invariant |made| == i
        invariant forall j :: 0 <= j < i ==> fresh(made[j])
        invariant forall j, k :: 0 <= j < k < i ==> made[j] != made[k]
        invariant forall j :: 0 <= j < i ==>
          && made[j].rest == RestPosition(placements[j], innerWidth, innerHeight)
          && made[j].State() == IdleState(Point(0.0, 0.0), false)
      {
        var o := new IdleObject(placements[i], innerWidth, innerHeight);
        made := made + [o];
      }
      objects := made;
      mouse := None;
      lastActivityTime := now;
    }

    /** The document `mousemove` handler. */
    method MouseMove(clientX: real, clientY: real, now: int)
      modifies this
      ensures mouse == Some(Point(clientX, clientY)) && lastActivityTime == now
      ensures objects == old(objects)
    {
      mouse := Some(Point(clientX, clientY));
      lastActivityTime := now;
    }

    /** The document `scroll` handler. */
    method Scroll(now: int)
      modifies this
      ensures lastActivityTime == now
      ensures objects == old(objects) && mouse == old(mouse)
    {
      lastActivityTime := now;
    }

    /** One frame of `updateIdleObjects` at time `now`: every object takes
        one `StepObject` with the same idleness and pointer. */
    method UpdateIdleObjects(now: int, sqrt: real -> real)
      requires Valid()
      modifies objects
      ensures forall i :: 0 <= i < |objects| ==>
        objects[i].State() == StepObject(objects[i].rest, old(objects[i].State()),
                                         IsIdle(now, lastActivityTime), mouse, sqrt)
    {
      var idle := now - lastActivityTime > IdleThreshold;
      for i := 0 to |objects|
        invariant forall j :: 0 <= j < i ==>
          objects[j].State() == StepObject(objects[j].rest, old(objects[j].State()), idle, mouse, sqrt)
        invariant forall j :: i <= j < |objects| ==> objects[j].State() == old(objects[j].State())
      {
        objects[i].Update(idle, mouse, sqrt);
      }
    }
  }

  /** Within five seconds of the last pointer move or scroll, every object is
      hidden at its rest position whatever the pointer does. */
  lemma ActivityHidesAll(rest: Point, s: IdleState, now: int, lastActivity: int,
                         mouse: Option<Point>, sqrt: real -> real)
    requires now - lastActivity <= IdleThreshold
    ensures StepObject(rest, s, IsIdle(now, lastActivity), mouse, sqrt) == IdleState(Point(0.0, 0.0), false)
  {
  }
}
