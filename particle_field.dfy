/** The testimonial canvas background: a field of particles that drift,
    bounce off the canvas edges and are pushed away from the mouse pointer.
    `ParticleState` and the functions over it state what one particle does
    in one frame; the classes `Particle` and `TestimonialCanvas` hold the
    state that the page updates in place. */
module ParticleField {
  import opened Common

  /** `mouse.radius`: how close the pointer must come to push a particle. */
  const MouseRadius: real := 100.0
  /** How strongly a particle is pushed away from the pointer. */
  const Speed: real := 1.5
  /** Canvas area, in square pixels, per particle. */
  const AreaPerParticle: nat := 9000
  /** The colours a particle may be given. */
  const Palette: seq<string> := [
    "rgba(255,255,255,0.8)", "rgba(255, 99, 71, 0.7)", "rgba(60, 179, 113, 0.7)",
    "rgba(100, 149, 237, 0.7)", "rgba(255, 215, 0, 0.7)"
  ]

  /** What a particle is at one moment: centre, radius, fill colour and
      the displacement it drifts by each frame. */
  datatype ParticleState = ParticleState(
    x: real, y: real, size: real, color: string, directionX: real, directionY: real)

  // ---------------------------------------------------------------------
  // Creating the field

  /** The number of particles for a canvas of the given pixel size:
      one per 9000 square pixels, rounded down. */
  function ParticleCount(width: nat, height: nat): (n: nat)
    ensures n * AreaPerParticle <= width * height < (n + 1) * AreaPerParticle
  {
    width * height / AreaPerParticle
  }

  /** A canvas of 300 by 300 pixels holds ten particles. */
  lemma ParticleCountOfSquare()
    ensures ParticleCount(300, 300) == 10
  {
  }

  predicate InUnitInterval(u: real) {
    0.0 <= u < 1.0
  }

  /** The six values `Math.random()` returns while one particle is made,
      in the order they are drawn. */
  datatype Draw = Draw(size: real, x: real, y: real, directionX: real, directionY: real, color: real)

  predicate ValidDraw(d: Draw) {
    && InUnitInterval(d.size) && InUnitInterval(d.x) && InUnitInterval(d.y)
    && InUnitInterval(d.directionX) && InUnitInterval(d.directionY) && InUnitInterval(d.color)
  }

  /** A fraction of a non-negative length lies within that length. */
  lemma FractionOf(u: real, length: real)
    requires InUnitInterval(u) && 0.0 <= length
    ensures 0.0 <= u * length <= length
  {
  }

  /** `Math.random() * ((limit - size * 2) - size * 2) + size * 2`: a start
      coordinate, at least one diameter inside both edges when the canvas is
      at least four radii across. */
  function StartCoordinate(u: real, size: real, limit: nat): (pos: real)
    requires InUnitInterval(u)
    ensures 4.0 * size <= limit as real ==> 2.0 * size <= pos <= limit as real - 2.0 * size
  {
    var span := (limit as real - size * 2.0) - size * 2.0;
    if 0.0 <= span then FractionOf(u, span); u * span + size * 2.0
    else u * span + size * 2.0
  }

  /** `Math.floor(u * colors.length)`: an index into the palette. */
  function ColorIndex(u: real): (i: nat)
    requires InUnitInterval(u)
    ensures i < |Palette|
  {
    (u * |Palette| as real).Floor
  }

  /** The particle made from one set of random draws on a canvas of the
      given size. Its radius lies in [1, 6), each direction component in
      [-0.25, 0.25), its colour in the palette, and on a canvas at least
      four radii across it starts at least one diameter inside the edges. */
  function Spawn(width: nat, height: nat, d: Draw): (p: ParticleState)
    requires ValidDraw(d)
    ensures 1.0 <= p.size < 6.0
    ensures -0.25 <= p.directionX < 0.25 && -0.25 <= p.directionY < 0.25
    ensures p.color in Palette
    ensures 4.0 * p.size <= width as real ==> 2.0 * p.size <= p.x <= width as real - 2.0 * p.size
    ensures 4.0 * p.size <= height as real ==> 2.0 * p.size <= p.y <= height as real - 2.0 * p.size
  {
    var size := d.size * 5.0 + 1.0;
    ParticleState(
      StartCoordinate(d.x, size, width),
      StartCoordinate(d.y, size, height),
      size,
      Palette[ColorIndex(d.color)],
      d.directionX * 0.5 - 0.25,
      d.directionY * 0.5 - 0.25)
  }

  // ---------------------------------------------------------------------
  // One frame of one particle

  /** The particle's edge on this axis lies past the canvas edge. */
  predicate HitsEdge(pos: real, size: real, limit: nat) {
    pos + size > limit as real || pos - size < 0.0
  }

  /** Reverse each direction component whose axis hits an edge. */
  function Bounce(p: ParticleState, width: nat, height: nat): (q: ParticleState)
    ensures q.x == p.x && q.y == p.y && q.size == p.size && q.color == p.color
  {
    p.(directionX := if HitsEdge(p.x, p.size, width) then -p.directionX else p.directionX,
       directionY := if HitsEdge(p.y, p.size, height) then -p.directionY else p.directionY)
  }

  /** Distance from the particle's centre to the pointer. */
  function MouseDistance(p: ParticleState, m: Point, sqrt: real -> real): real {
    Length(Point(m.x - p.x, m.y - p.y), sqrt)
  }

  /** The pointer is present and closer than `mouse.radius + size`. */
  predicate Repels(p: ParticleState, mouse: Option<Point>, sqrt: real -> real) {
    mouse.Some? && MouseDistance(p, mouse.value, sqrt) < MouseRadius + p.size
  }

  /** The strength of the push at a given distance. It is positive inside the
      repel range and at most `(radius + size) / radius`. */
  function Force(size: real, distance: real): (f: real)
    ensures distance < MouseRadius + size ==> 0.0 < f
    ensures 0.0 <= distance ==> f <= (MouseRadius + size) / MouseRadius
  {
    (MouseRadius + size - distance) / MouseRadius
  }

  /** The force never grows as the pointer moves away. */
  lemma ForceNonIncreasing(size: real, nearer: real, farther: real)
    requires nearer <= farther
    ensures Force(size, farther) <= Force(size, nearer)
  {
  }

  /** How far the push moves the particle, `force * speed`. */
  function NudgeLength(p: ParticleState, m: Point, sqrt: real -> real): real {
    Force(p.size, MouseDistance(p, m, sqrt)) * Speed
  }

  /** Move the particle against the unit direction `c` by `force * speed`. */
  function Pushed(p: ParticleState, c: Point, force: real): ParticleState {
    p.(x := p.x - c.x * force * Speed, y := p.y - c.y * force * Speed)
  }

  /** Push the particle straight away from the pointer when it is close
      enough; otherwise leave it where it is. */
  function Repel(p: ParticleState, mouse: Option<Point>, sqrt: real -> real): (q: ParticleState)
    ensures q.directionX == p.directionX && q.directionY == p.directionY
    ensures q.size == p.size && q.color == p.color
    ensures !Repels(p, mouse, sqrt) ==> q == p
  {
    if Repels(p, mouse, sqrt) then
      var m := mouse.value;
      var distance := MouseDistance(p, m, sqrt);
      var c := Direction(m.x - p.x, m.y - p.y, distance);
      Pushed(p, c, Force(p.size, distance))
    else
      p
  }

  /** Move the particle by its direction. */
  function Drift(p: ParticleState): ParticleState {
    p.(x := p.x + p.directionX, y := p.y + p.directionY)
  }

  /** `Particle.update`: bounce, then the push, then the drift. The direction
      components are reversed exactly on an edge hit, whatever the pointer
      does; radius and colour never change; with no push the particle moves
      by exactly its new direction. */
  function Step(p: ParticleState, width: nat, height: nat, mouse: Option<Point>, sqrt: real -> real)
    : (q: ParticleState)
    ensures q.directionX == if HitsEdge(p.x, p.size, width) then -p.directionX else p.directionX
    ensures q.directionY == if HitsEdge(p.y, p.size, height) then -p.directionY else p.directionY
    ensures q.size == p.size && q.color == p.color
    ensures !Repels(p, mouse, sqrt) ==> q.x == p.x + q.directionX && q.y == p.y + q.directionY
  {
    Drift(Repel(Bounce(p, width, height), mouse, sqrt))
  }

  // ---------------------------------------------------------------------
  // The push away from the pointer

  /** The push moves the particle exactly when the pointer is present and
      within `mouse.radius + size` of it. */
  lemma RepelMovesIffClose(p: ParticleState, mouse: Option<Point>, sqrt: real -> real)
    requires IsSqrt(sqrt)
    ensures Repel(p, mouse, sqrt) != p <==> Repels(p, mouse, sqrt)
  {
    if Repels(p, mouse, sqrt) {
      var m := mouse.value;
      var distance := MouseDistance(p, m, sqrt);
      var c := Direction(m.x - p.x, m.y - p.y, distance);
      var force := Force(p.size, distance);
      SqrtOfSquares(sqrt, m.x - p.x, m.y - p.y);
      DirectionIsUnit(m.x - p.x, m.y - p.y, distance);
      if c.x * force * Speed == 0.0 && c.y * force * Speed == 0.0 {
        MulZero(c.x, force * Speed);
        MulZero(c.y, force * Speed);
        assert false;
      }
    }
  }

  /** The push moves the particle by exactly `force * speed`. */
  lemma RepelDisplacement(p: ParticleState, m: Point, sqrt: real -> real)
    requires IsSqrt(sqrt) && Repels(p, Some(m), sqrt)
    ensures var q := Repel(p, Some(m), sqrt);
      Norm2(Point(q.x - p.x, q.y - p.y)) == NudgeLength(p, m, sqrt) * NudgeLength(p, m, sqrt)
  {
    var distance := MouseDistance(p, m, sqrt);
    var c := Direction(m.x - p.x, m.y - p.y, distance);
    var k := NudgeLength(p, m, sqrt);
    SqrtOfSquares(sqrt, m.x - p.x, m.y - p.y);
    DirectionIsUnit(m.x - p.x, m.y - p.y, distance);
    var q := Repel(p, Some(m), sqrt);
    assert q == Pushed(p, c, Force(p.size, distance));
    assert c.x * Force(p.size, distance) * Speed == c.x * k;
    assert c.y * Force(p.size, distance) * Speed == c.y * k;
    assert q.x - p.x == -(c.x * k) && q.y - p.y == -(c.y * k);
    ScaledSquare(c.x, k);
    ScaledSquare(c.y, k);
    MulOne(c.x * c.x + c.y * c.y, k * k);
  }

  /** The push points straight away from the pointer: afterwards the particle
      is farther from it by exactly the length of the push, so the push never
      brings a particle closer. */
  lemma RepelMovesAway(p: ParticleState, m: Point, sqrt: real -> real)
    requires IsSqrt(sqrt) && Repels(p, Some(m), sqrt)
    ensures MouseDistance(Repel(p, Some(m), sqrt), m, sqrt)
         == MouseDistance(p, m, sqrt) + NudgeLength(p, m, sqrt)
    ensures MouseDistance(p, m, sqrt) < MouseDistance(Repel(p, Some(m), sqrt), m, sqrt)
  {
    var dx, dy := m.x - p.x, m.y - p.y;
    var distance := MouseDistance(p, m, sqrt);
    var c := Direction(dx, dy, distance);
    var k := NudgeLength(p, m, sqrt);
    SqrtOfSquares(sqrt, dx, dy);
    DirectionScales(dx, dy, distance);
    DirectionIsUnit(dx, dy, distance);
    var q := Repel(p, Some(m), sqrt);
    assert q == Pushed(p, c, Force(p.size, distance));
    assert q.x == p.x - c.x * k && q.y == p.y - c.y * k;
    var r := distance + k;
    assert m.x - q.x == c.x * r && m.y - q.y == c.y * r;
    ScaledUnitLength(c, r, sqrt);
  }

  // ---------------------------------------------------------------------
  // Staying on the canvas while the pointer is away

  /** On one axis: the particle is inside `[size, limit - size]`, or it has
      overshot an edge while moving outwards and its next (reversed) step
      brings it back inside. */
  predicate AxisInBounds(pos: real, size: real, dir: real, limit: real) {
    && (size <= pos || (dir < 0.0 && size <= pos - dir))
    && (pos <= limit - size || (0.0 < dir && pos - dir <= limit - size))
  }

  /** The invariant that edge bouncing keeps, for a canvas at least one
      diameter across in each direction. */
  predicate InBounds(p: ParticleState, width: nat, height: nat) {
    && 2.0 * p.size <= width as real && 2.0 * p.size <= height as real
    && AxisInBounds(p.x, p.size, p.directionX, width as real)
    && AxisInBounds(p.y, p.size, p.directionY, height as real)
  }

  /** A particle in bounds lies within one step of `[size, limit - size]`. */
  lemma InBoundsNearCanvas(p: ParticleState, width: nat, height: nat)
    requires InBounds(p, width, height)
    ensures p.size - Abs(p.directionX) <= p.x <= width as real - p.size + Abs(p.directionX)
    ensures p.size - Abs(p.directionY) <= p.y <= height as real - p.size + Abs(p.directionY)
  {
  }

  /** With the pointer away, one frame keeps a particle in bounds and keeps
      the speed of each direction component. */
  lemma StepKeepsInBounds(p: ParticleState, width: nat, height: nat, sqrt: real -> real)
    requires InBounds(p, width, height)
    ensures var q := Step(p, width, height, None, sqrt);
      && InBounds(q, width, height)
      && Abs(q.directionX) == Abs(p.directionX) && Abs(q.directionY) == Abs(p.directionY)
  {
  }

  /** `n` frames of one particle with the pointer away from the canvas. */
  function Frames(p: ParticleState, width: nat, height: nat, sqrt: real -> real, n: nat)
    : ParticleState
    decreases n
  {
    if n == 0 then p else Frames(Step(p, width, height, None, sqrt), width, height, sqrt, n - 1)
  }

  /** Any number of frames keeps a particle in bounds, with its radius and
      the speed of each direction component unchanged. */
  lemma {:induction false} FramesKeepInBounds(
    p: ParticleState, width: nat, height: nat, sqrt: real -> real, n: nat)
    requires InBounds(p, width, height)
    ensures var q := Frames(p, width, height, sqrt, n);
      && InBounds(q, width, height) && q.size == p.size
      && Abs(q.directionX) == Abs(p.directionX) && Abs(q.directionY) == Abs(p.directionY)
    decreases n
  {
    if n > 0 {
      StepKeepsInBounds(p, width, height, sqrt);
      FramesKeepInBounds(Step(p, width, height, None, sqrt), width, height, sqrt, n - 1);
    }
  }

  /** On a canvas of at least 24 by 24 pixels a new particle starts in bounds. */
  lemma SpawnInBounds(width: nat, height: nat, d: Draw)
    requires ValidDraw(d) && 24 <= width && 24 <= height
    ensures InBounds(Spawn(width, height, d), width, height)
  {
  }

  /** While the pointer stays away, a particle made by `initCanvas` on a
      canvas of at least 24 by 24 pixels keeps its centre strictly inside the
      canvas forever, and so within one radius of it. */
  lemma SpawnedParticleStaysOnCanvas(width: nat, height: nat, d: Draw, sqrt: real -> real, n: nat)
    requires ValidDraw(d) && 24 <= width && 24 <= height
    ensures var q := Frames(Spawn(width, height, d), width, height, sqrt, n);
      && 0.0 < q.x < width as real && 0.0 < q.y < height as real
      && -q.size <= q.x <= width as real + q.size && -q.size <= q.y <= height as real + q.size
  {
    var p := Spawn(width, height, d);
    SpawnInBounds(width, height, d);
    FramesKeepInBounds(p, width, height, sqrt, n);
    InBoundsNearCanvas(Frames(p, width, height, sqrt, n), width, height);
  }

  /** The push can take a particle out of bounds in a single frame: a
      particle of radius 1 at (1, 12) drifting left, with the pointer one
      pixel to its right on a 24 by 24 canvas, is pushed 1.5 px past the left
      edge. */
  lemma PushCanLeaveBounds(p: ParticleState, m: Point, sqrt: real -> real)
    requires IsSqrt(sqrt)
    requires p.x == 1.0 && p.y == 12.0 && p.size == 1.0 && p.directionX == -0.1 && p.directionY == 0.0
    requires m == Point(2.0, 12.0)
    ensures InBounds(p, 24, 24)
    ensures !InBounds(Step(p, 24, 24, Some(m), sqrt), 24, 24)
  {
    var b := Bounce(p, 24, 24);
    assert b == p;
    var distance := MouseDistance(p, m, sqrt);
    assert Point(m.x - p.x, m.y - p.y) == Point(1.0, 0.0);
    SqrtOfSquares(sqrt, 1.0, 0.0);
    RootUnique(distance, 1.0);
    assert Direction(1.0, 0.0, distance) == Point(1.0, 0.0);
    assert Force(p.size, distance) == 1.0;
    assert Repel(b, Some(m), sqrt).x == -0.5;
  }

  /** A particle more than one step past the left edge never comes back: the
      edge test reverses its horizontal direction on every frame, so every
      second frame it is back where it was, moving the same way. */
  lemma {:induction false} StuckPastLeftEdge(p: ParticleState, width: nat, height: nat, sqrt: real -> real, n: nat)
    requires p.x + Abs(p.directionX) < p.size
    ensures var q := Frames(p, width, height, sqrt, 2 * n);
      q.x == p.x && q.directionX == p.directionX && q.size == p.size
    decreases n
  {
    if n > 0 {
      var q1 := Step(p, width, height, None, sqrt);
      var q2 := Step(q1, width, height, None, sqrt);
      assert q1.directionX == -p.directionX && q1.x == p.x - p.directionX;
      assert q2.directionX == p.directionX && q2.x == p.x;
      assert Frames(p, width, height, sqrt, 2 * n) == Frames(q2, width, height, sqrt, 2 * (n - 1));
      StuckPastLeftEdge(q2, width, height, sqrt, n - 1);
    }
  }

  // ---------------------------------------------------------------------
  // The mutable objects

  /** One particle object; `update` changes its position and direction in
      place. */
  class Particle {
    var x: real
    var y: real
    var size: real
    var color: string
    var directionX: real
    var directionY: real

    function State(): ParticleState
      reads this
    {
      ParticleState(x, y, size, color, directionX, directionY)
    }

    constructor (x: real, y: real, size: real, color: string, directionX: real, directionY: real)
      ensures State() == ParticleState(x, y, size, color, directionX, directionY)
    {
      this.x := x;
      this.y := y;
      this.size := size;
      this.color := color;
      this.directionX := directionX;
      this.directionY := directionY;
    }

    /** The two `-=` statements of the push. */
    method PushAway(c: Point, force: real)
      modifies this
      ensures State() == Pushed(old(State()), c, force)
    {
      x := x - c.x * force * Speed;
      y := y - c.y * force * Speed;
    }

    /** `update()` without the drawing: the new state is one `Step`. */
    method Update(width: nat, height: nat, mouse: Option<Point>, sqrt: real -> real)
      modifies this
      ensures State() == Step(old(State()), width, height, mouse, sqrt)
    {
      if x + size > width as real || x - size < 0.0 {
        directionX := -directionX;
      }
      if y + size > height as real || y - size < 0.0 {
        directionY := -directionY;
      }
      ghost var bounced := State();
      assert bounced == Bounce(old(State()), width, height);
      if mouse.Some? {
        var dx := mouse.value.x - x;
        var dy := mouse.value.y - y;
        var distance := Length(Point(dx, dy), sqrt);
        assert distance == MouseDistance(bounced, mouse.value, sqrt);
        if distance < MouseRadius + size {
          var c := Direction(dx, dy, distance);
          var force := Force(size, distance);
          assert Repels(bounced, mouse, sqrt);
          assert c == Direction(mouse.value.x - bounced.x, mouse.value.y - bounced.y, distance);
          assert force == Force(bounced.size, distance);
          PushAway(c, force);
        } else {
          assert !Repels(bounced, mouse, sqrt);
        }
      }
      assert State() == Repel(bounced, mouse, sqrt);
      x := x + directionX;
      y := y + directionY;
    }
  }

  /** The canvas, its particles and the pointer as the canvas sees it. */
  class TestimonialCanvas {
    var width: nat
    var height: nat
    var particles: seq<Particle>
    /** Pointer position relative to the canvas; `None` when it is outside. */
    var mouse: Option<Point>

    /** Every entry of `particles` is a different object. */
    ghost predicate Valid()
      reads this
    {
      forall i, j :: 0 <= i < j < |particles| ==> particles[i] != particles[j]
    }

    constructor ()
      ensures Valid() && particles == [] && mouse == None
    {
      width, height := 0, 0;
      particles := [];
      mouse := None;
    }

    /** `initCanvas`: size the canvas to its box and replace every particle
        by a new one made from the next random draws. */
    method InitCanvas(offsetWidth: nat, offsetHeight: nat, draws: seq<Draw>)
      requires |draws| == ParticleCount(offsetWidth, offsetHeight)
      requires forall i :: 0 <= i < |draws| ==> ValidDraw(draws[i])
      modifies this
      ensures Valid()
      ensures width == offsetWidth && height == offsetHeight && mouse == old(mouse)
      ensures |particles| == ParticleCount(width, height)
      ensures forall i :: 0 <= i < |particles| ==>
        fresh(particles[i]) && particles[i].State() == Spawn(width, height, draws[i])
      ensures forall p :: p in particles ==> p !in old(particles)
    {
      width := offsetWidth;
      height := offsetHeight;
      particles := [];
      var n := ParticleCount(width, height);
      for i := 0 to n
        invariant width == offsetWidth && height == offsetHeight && mouse == old(mouse)
        invariant |particles| == i
        invariant Valid()
        invariant forall j :: 0 <= j < i ==>
          fresh(particles[j]) && particles[j].State() == Spawn(width, height, draws[j])
      {
        var s := Spawn(width, height, draws[i]);
        var p := new Particle(s.x, s.y, s.size, s.color, s.directionX, s.directionY);
        particles := particles + [p];
      }
    }

    /** The body of `animateTestimonialCanvas` for one frame: every particle
        takes one `Step`, and nothing else changes. */
    method AnimateFrame(sqrt: real -> real)
      requires Valid()
      modifies particles
      ensures forall i :: 0 <= i < |particles| ==>
        particles[i].State() == Step(old(particles[i].State()), width, height, mouse, sqrt)
    {
      for i := 0 to |particles|
        invariant forall j :: 0 <= j < i ==>
          particles[j].State() == Step(old(particles[j].State()), width, height, mouse, sqrt)
        invariant forall j :: i <= j < |particles| ==> particles[j].State() == old(particles[j].State())
      {
        particles[i].Update(width, height, mouse, sqrt);
      }
    }

    /** The canvas `mousemove` handler: the pointer in canvas coordinates. */
    method MouseMove(clientX: real, clientY: real, rectLeft: real, rectTop: real)
      modifies this
      ensures mouse == Some(Point(clientX - rectLeft, clientY - rectTop))
      ensures particles == old(particles) && width == old(width) && height == old(height)
    {
      mouse := Some(Point(clientX - rectLeft, clientY - rectTop));
    }

    /** The canvas `mouseleave` handler: the pointer is gone. */
    method MouseLeave()
      modifies this
      ensures mouse == None
      ensures particles == old(particles) && width == old(width) && height == old(height)
    {
      mouse := None;
    }
  }
}
