/**
 * The morphing-polygon overlay of assets/js/overlays/morph-polygons.js: the closure state
 * of `init` as a class, the polygons as values in a sequence the closure reassigns,
 * `Math.random()` as a supply of draws and `Math.sin` as a function parameter.
 */
module MorphPolygons {
  import opened Common
  import opened Governor

  /** `Math.PI` as a double. */
  const Pi: real := 3.141592653589793

  /** Draws a polygon consumes before its vertex noises. */
  const Fixed: nat := 8

  /** One polygon, as the `MorphPolygon` constructor sets it up. */
  datatype MorphPolygon = MorphPolygon(
    sides: nat, x: real, y: real, baseRadius: real,
    rotation: real, rotationSpeed: real,
    noiseOffset: real, noiseSpeed: real, alpha: real,
    vertexNoises: seq<real>)

  /** The shape a polygon keeps all its life: 3 to 5 sides, one noise offset in [0, 1000) each. */
  predicate Shaped(p: MorphPolygon)
  {
    && 3 <= p.sides <= 5
    && |p.vertexNoises| == p.sides
    && (forall i :: 0 <= i < |p.vertexNoises| ==> 0.0 <= p.vertexNoises[i] < 1000.0)
    && 0.1 <= p.alpha < 0.4
  }

  /** Where resizing puts a polygon: on the canvas, with a radius of 40 to 120 times the ratio. */
  predicate Placed(p: MorphPolygon, width: nat, height: nat, ratio: real)
  {
    && 0.0 <= p.x <= width as real && 0.0 <= p.y <= height as real
    && 40.0 * ratio <= p.baseRadius < 120.0 * ratio
  }

  predicate Formed(ps: seq<MorphPolygon>)
  {
    forall i :: 0 <= i < |ps| ==> Shaped(ps[i])
  }

  predicate AllPlaced(ps: seq<MorphPolygon>, width: nat, height: nat, ratio: real)
  {
    forall i :: 0 <= i < |ps| ==> Placed(ps[i], width, height, ratio)
  }

  /** A product of a value in `[lo, hi)` and a positive factor lies in `[lo * f, hi * f)`. */
  lemma ScaledRange(v: real, lo: real, hi: real, f: real)
    requires lo <= v < hi && f > 0.0
    ensures lo * f <= v * f < hi * f
  {
    assert (v - lo) * f >= 0.0;
    assert (hi - v) * f > 0.0;
  }

  /** `(Math.random() * 80 + 40) * currentPixelRatio`. */
  function BaseRadius(u: Unit, ratio: real): (r: real)
    requires ratio > 0.0
    ensures 40.0 * ratio <= r < 120.0 * ratio
  {
    assert (u * 80.0 + 40.0) * ratio == u * (80.0 * ratio) + 40.0 * ratio;
    ScaledDraw(u, 80.0 * ratio);
    (u * 80.0 + 40.0) * ratio
  }

  /** `Math.floor(Math.random() * 3) + 3`. */
  function Sides(u: Unit): (n: nat)
    ensures 3 <= n <= 5
  {
    Scaled(u, 3.0).Floor + 3
  }

  /** The `n` vertex noise offsets, `Math.random() * 1000` each, from the draws at `at` onward. */
  function Noises(d: Draws, at: nat, n: nat): (r: seq<real>)
    ensures |r| == n
  {
    seq(n, k requires 0 <= k < n => Scaled(d(at + k), 1000.0))
  }

  /** Every vertex noise offset lies in [0, 1000). */
  lemma NoisesBounded(d: Draws, at: nat, n: nat)
    ensures forall k :: 0 <= k < n ==> 0.0 <= Noises(d, at, n)[k] < 1000.0
  {
    forall k | 0 <= k < n
      ensures 0.0 <= Noises(d, at, n)[k] < 1000.0
    {
      assert Noises(d, at, n)[k] == Scaled(d(at + k), 1000.0);
    }
  }

  /**
   * The polygon `new MorphPolygon()` makes from the draws at `at` onward: the side count,
   * position, radius, rotation, rotation speed, noise offset and alpha take eight draws,
   * then one draw per vertex.
   */
  function Polygon(d: Draws, at: nat, width: nat, height: nat, ratio: real, speed: real): (p: MorphPolygon)
    requires ratio > 0.0
    ensures p.sides == Sides(d(at)) && |p.vertexNoises| == p.sides
  {
    var sides := Sides(d(at));
    MorphPolygon(sides, Scaled(d(at + 1), width as real), Scaled(d(at + 2), height as real),
      BaseRadius(d(at + 3), ratio), Scaled(d(at + 4), Pi * 2.0), (d(at + 5) - 0.5) * 0.5 * speed,
      Scaled(d(at + 6), 1000.0), speed * 0.001, Scaled(d(at + 7), 0.3) + 0.1, Noises(d, at + Fixed, sides))
  }

  /**
   * A new polygon has 3 to 5 sides with one noise offset in [0, 1000) each, lies on the
   * canvas with a radius of 40 to 120 times the ratio, starts turned by less than a full
   * turn, and advances its noise by a thousandth of the speed per millisecond.
   */
  lemma PolygonFormed(d: Draws, at: nat, width: nat, height: nat, ratio: real, speed: real)
    requires ratio > 0.0
    ensures var p := Polygon(d, at, width, height, ratio, speed);
      Shaped(p) && Placed(p, width, height, ratio)
      && 0.0 <= p.rotation < 2.0 * Pi && p.noiseSpeed == speed * 0.001
  {
    NoisesBounded(d, at + Fixed, Sides(d(at)));
  }

  /** How many draws a polygon took: eight, and one per vertex. */
  function Consumed(p: MorphPolygon): nat
  {
    Fixed + p.sides
  }

  /** Where the draws of polygon `n` of `initPolygons` start: after all those of the polygons before it. */
  function DrawsUsed(n: int, d: Draws): (r: nat)
    decreases n
  {
    if n <= 0 then 0 else DrawsUsed(n - 1, d) + Fixed + Sides(d(DrawsUsed(n - 1, d)))
  }

  /** Polygon `i` of `initPolygons`, drawn from the draws after those of the polygons before it. */
  function Birth(d: Draws, width: nat, height: nat, ratio: real, speed: real): int -> MorphPolygon
    requires ratio > 0.0
  {
    i => Polygon(d, DrawsUsed(i, d), width, height, ratio, speed)
  }

  /** The `n` polygons `initPolygons` creates, each from the draws after those of the one before. */
  function Spawn(n: nat, d: Draws, width: nat, height: nat, ratio: real, speed: real): (r: seq<MorphPolygon>)
    requires ratio > 0.0
    ensures |r| == n
  {
    seq(n, Birth(d, width, height, ratio, speed))
  }

  /** One more element of a sequence built by `f` is `f` at the next index. */
  lemma BuiltNext<T>(n: nat, f: int -> T)
    ensures seq(n + 1, f) == seq(n, f) + [f(n)]
  {
    var longer, shorter := seq(n + 1, f), seq(n, f);
    assert forall k | 0 <= k < n :: longer[k] == shorter[k];
  }

  /** Spawning one more polygon appends the one drawn after all the others. */
  lemma SpawnNext(n: nat, d: Draws, width: nat, height: nat, ratio: real, speed: real)
    requires ratio > 0.0
    ensures Spawn(n + 1, d, width, height, ratio, speed)
      == Spawn(n, d, width, height, ratio, speed) + [Polygon(d, DrawsUsed(n, d), width, height, ratio, speed)]
  {
    BuiltNext(n, Birth(d, width, height, ratio, speed));
  }

  /** Every spawned polygon is well shaped and placed on the canvas. */
  lemma SpawnFormed(n: nat, d: Draws, width: nat, height: nat, ratio: real, speed: real)
    requires ratio > 0.0
    ensures Formed(Spawn(n, d, width, height, ratio, speed))
    ensures AllPlaced(Spawn(n, d, width, height, ratio, speed), width, height, ratio)
  {
    forall i | 0 <= i < n {
      PolygonFormed(d, DrawsUsed(i, d), width, height, ratio, speed);
    }
  }

  /** Each polygon takes 11 to 13 draws, so `n` polygons take between 11n and 13n. */
  lemma {:induction false} DrawsUsedBounds(n: nat, d: Draws)
    ensures 11 * n <= DrawsUsed(n, d) <= 13 * n
  {
    if n > 0 {
      DrawsUsedBounds(n - 1, d);
    }
  }

  /**
   * The polygons of a spawn take consecutive, disjoint runs of draws: polygon `i` starts
   * where polygon `i - 1` stopped, and runs for as many draws as it consumed.
   */
  lemma SpawnDrawsInOrder(n: nat, d: Draws, width: nat, height: nat, ratio: real, speed: real)
    requires ratio > 0.0
    ensures forall i :: 0 <= i < n ==>
      DrawsUsed(i + 1, d) == DrawsUsed(i, d) + Consumed(Spawn(n, d, width, height, ratio, speed)[i])
  {
  }

  /** The new position and radius `resize` gives one polygon from three draws; nothing else changes. */
  function Relocate(p: MorphPolygon, d: Draws, width: nat, height: nat, ratio: real): (r: MorphPolygon)
    requires ratio > 0.0
    ensures Placed(r, width, height, ratio)
    ensures r.(x := p.x, y := p.y, baseRadius := p.baseRadius) == p
  {
    p.(x := Scaled(d(0), width as real), y := Scaled(d(1), height as real), baseRadius := BaseRadius(d(2), ratio))
  }

  /** Every polygon relocated in turn; polygon `i` uses draws `3i` to `3i + 2`. */
  function RelocateAll(ps: seq<MorphPolygon>, d: Draws, width: nat, height: nat, ratio: real): (r: seq<MorphPolygon>)
    requires ratio > 0.0
    ensures |r| == |ps|
  {
    if ps == [] then []
    else RelocateAll(ps[..|ps| - 1], d, width, height, ratio) + [Relocate(ps[|ps| - 1], Shift(d, 3 * (|ps| - 1)), width, height, ratio)]
  }

  /** After a resize every polygon is placed on the new canvas and keeps its shape. */
  lemma {:induction false} RelocateAllPlaced(ps: seq<MorphPolygon>, d: Draws, width: nat, height: nat, ratio: real)
    requires ratio > 0.0
    ensures forall i :: 0 <= i < |ps| ==>
      && Placed(RelocateAll(ps, d, width, height, ratio)[i], width, height, ratio)
      && RelocateAll(ps, d, width, height, ratio)[i].(x := ps[i].x, y := ps[i].y, baseRadius := ps[i].baseRadius) == ps[i]
  {
    if ps != [] {
      RelocateAllPlaced(ps[..|ps| - 1], d, width, height, ratio);
    }
  }

  /** `update(deltaTime)`: turn by the rotation speed per second, advance the noise. */
  function Update(p: MorphPolygon, deltaTime: real): (r: MorphPolygon)
    ensures r.sides == p.sides && r.vertexNoises == p.vertexNoises && r.alpha == p.alpha
    ensures r.x == p.x && r.y == p.y && r.baseRadius == p.baseRadius
    ensures r.rotationSpeed == p.rotationSpeed && r.noiseSpeed == p.noiseSpeed
  {
    p.(rotation := p.rotation + p.rotationSpeed * deltaTime * 0.001,
       noiseOffset := p.noiseOffset + p.noiseSpeed * deltaTime)
  }

  /** Two updates are one update by the summed time, and no time changes nothing. */
  lemma UpdateAdditive(p: MorphPolygon, a: real, b: real)
    ensures Update(Update(p, a), b) == Update(p, a + b)
    ensures Update(p, 0.0) == p
  {
    var once := Update(p, a + b);
    var twice := Update(Update(p, a), b);
    assert twice.rotation == once.rotation by {
      assert p.rotationSpeed * a * 0.001 + p.rotationSpeed * b * 0.001 == p.rotationSpeed * (a + b) * 0.001;
    }
    assert twice.noiseOffset == once.noiseOffset by {
      assert p.noiseSpeed * a + p.noiseSpeed * b == p.noiseSpeed * (a + b);
    }
  }

  /** Every polygon updated in turn. */
  function UpdateAll(ps: seq<MorphPolygon>, deltaTime: real): (r: seq<MorphPolygon>)
    ensures |r| == |ps|
  {
    if ps == [] then [] else UpdateAll(ps[..|ps| - 1], deltaTime) + [Update(ps[|ps| - 1], deltaTime)]
  }

  /** Updating all polygons updates each one on its own. */
  lemma {:induction false} UpdateAllEach(ps: seq<MorphPolygon>, deltaTime: real)
    ensures forall i :: 0 <= i < |ps| ==> UpdateAll(ps, deltaTime)[i] == Update(ps[i], deltaTime)
  {
    if ps != [] {
      UpdateAllEach(ps[..|ps| - 1], deltaTime);
    }
  }

  // ---------------------------------------------------------------- drawing

  /** `noise(x)`: the fractional part of `Math.sin(x) * 10000`. */
  function Noise(sine: real -> real, v: real): (n: real)
    ensures 0.0 <= n < 1.0
  {
    var t := sine(v) * 10000.0;
    t - t.Floor as real
  }

  /** The radius of vertex `i` in `draw`: the base radius moved by up to 10 pixels times the ratio. */
  function VertexRadius(p: MorphPolygon, i: nat, ratio: real, sine: real -> real): real
    requires i < |p.vertexNoises|
  {
    p.baseRadius + (Noise(sine, p.noiseOffset + p.vertexNoises[i]) - 0.5) * 20.0 * ratio
  }

  /**
   * A placed polygon's vertices stay between 30 and 130 pixels times the ratio from its
   * centre, so its outline never collapses through the centre.
   */
  lemma VertexRadiusBounds(p: MorphPolygon, i: nat, ratio: real, sine: real -> real)
    requires i < |p.vertexNoises| && ratio > 0.0
    ensures p.baseRadius - 10.0 * ratio <= VertexRadius(p, i, ratio, sine) < p.baseRadius + 10.0 * ratio
    ensures 40.0 * ratio <= p.baseRadius < 120.0 * ratio ==>
      30.0 * ratio <= VertexRadius(p, i, ratio, sine) < 130.0 * ratio
  {
    var n := Noise(sine, p.noiseOffset + p.vertexNoises[i]);
    ScaledRange(n - 0.5, -0.5, 0.5, 20.0 * ratio);
    assert (n - 0.5) * 20.0 * ratio == (n - 0.5) * (20.0 * ratio);
  }

  /** The loop of `draw` over the vertices: the radius of each, in order. */
  method Outline(p: MorphPolygon, ratio: real, sine: real -> real) returns (radii: seq<real>)
    requires Shaped(p) && ratio > 0.0
    ensures |radii| == p.sides
    ensures forall i :: 0 <= i < p.sides ==> radii[i] == VertexRadius(p, i, ratio, sine)
    ensures forall i :: 0 <= i < p.sides ==>
      p.baseRadius - 10.0 * ratio <= radii[i] < p.baseRadius + 10.0 * ratio
  {
    radii := [];
    var i := 0;
    while i < p.sides
      invariant 0 <= i <= p.sides
      invariant |radii| == i
      invariant forall j :: 0 <= j < i ==> radii[j] == VertexRadius(p, j, ratio, sine)
      invariant forall j :: 0 <= j < i ==> p.baseRadius - 10.0 * ratio <= radii[j] < p.baseRadius + 10.0 * ratio
    {
      VertexRadiusBounds(p, i, ratio, sine);
      radii := radii + [VertexRadius(p, i, ratio, sine)];
      i := i + 1;
    }
  }

  /** `new MorphPolygon()` from the draws at `at` onward, its vertex noises drawn in a loop. */
  method NewPolygon(d: Draws, at: nat, width: nat, height: nat, ratio: real, speed: real) returns (p: MorphPolygon)
    requires ratio > 0.0
    ensures p == Polygon(d, at, width, height, ratio, speed)
  {
    var sides := Sides(d(at));
    var noises: seq<real> := [];
    var i := 0;
    while i < sides
      invariant 0 <= i <= sides
      invariant noises == Noises(d, at + Fixed, i)
    {
      noises := noises + [Scaled(d(at + Fixed + i), 1000.0)];
      i := i + 1;
    }
    p := MorphPolygon(sides, Scaled(d(at + 1), width as real), Scaled(d(at + 2), height as real),
      BaseRadius(d(at + 3), ratio), Scaled(d(at + 4), Pi * 2.0), (d(at + 5) - 0.5) * 0.5 * speed,
      Scaled(d(at + 6), 1000.0), speed * 0.001, Scaled(d(at + 7), 0.3) + 0.1, noises);
  }

  /** The loop of `initPolygons`: `count` polygons, each drawn after the one before. */
  method MakePolygons(count: nat, d: Draws, width: nat, height: nat, ratio: real, speed: real) returns (made: seq<MorphPolygon>)
    requires ratio > 0.0
    ensures made == Spawn(count, d, width, height, ratio, speed)
  {
    made := [];
    var used: nat := 0;
    var i := 0;
    while i < count
      invariant 0 <= i <= count
      invariant made == Spawn(i, d, width, height, ratio, speed) && used == DrawsUsed(i, d)
    {
      var p := NewPolygon(d, used, width, height, ratio, speed);
      SpawnNext(i, d, width, height, ratio, speed);
      assert Consumed(p) == Fixed + Sides(d(used));
      assert DrawsUsed(i + 1, d) == used + Consumed(p);
      made := made + [p];
      used := used + Consumed(p);
      i := i + 1;
    }
  }

  /** `outlines[i]` holds the vertex radii of polygon `ps[i]` at `ratio`, one per vertex. */
  predicate OutlinedAs(outlines: seq<seq<real>>, ps: seq<MorphPolygon>, ratio: real, sine: real -> real)
  {
    && |outlines| == |ps|
    && forall i :: 0 <= i < |ps| ==>
         && |outlines[i]| == |ps[i].vertexNoises|
         && forall v :: 0 <= v < |ps[i].vertexNoises| ==> outlines[i][v] == VertexRadius(ps[i], v, ratio, sine)
  }

  /** The `forEach` of `render`: update each polygon, then outline it with the ratio. */
  method UpdateAndOutline(ps: seq<MorphPolygon>, deltaTime: real, ratio: real, sine: real -> real)
    returns (moved: seq<MorphPolygon>, outlines: seq<seq<real>>)
    requires ratio > 0.0 && forall i :: 0 <= i < |ps| ==> Shaped(ps[i])
    ensures moved == UpdateAll(ps, deltaTime)
    ensures forall i :: 0 <= i < |ps| ==> moved[i] == Update(ps[i], deltaTime)
    ensures OutlinedAs(outlines, moved, ratio, sine)
  {
    moved, outlines := [], [];
    var i := 0;
    while i < |ps|
      invariant 0 <= i <= |ps|
      invariant |moved| == i && |outlines| == i
      invariant forall j :: 0 <= j < i ==> moved[j] == Update(ps[j], deltaTime)
      invariant forall j :: 0 <= j < i ==> (|outlines[j]| == moved[j].sides
        && (forall v :: 0 <= v < moved[j].sides ==> outlines[j][v] == VertexRadius(moved[j], v, ratio, sine)))
    {
      var p := Update(ps[i], deltaTime);
      var radii := Outline(p, ratio, sine);
      moved := moved + [p];
      outlines := outlines + [radii];
      i := i + 1;
    }
    UpdateAllEach(ps, deltaTime);
  }

  /** The polygons with the canvas backing size they are placed on. */
  datatype Canvas = Canvas(polygons: seq<MorphPolygon>, width: nat, height: nat)

  /**
   * The resize check at the top of `render`: when the backing size no longer matches the
   * layout size times the ratio, resize the canvas from the bounding box and relocate every
   * polygon; otherwise nothing.
   */
  function Fit(c: Canvas, offsetWidth: nat, offsetHeight: nat, boxWidth: real, boxHeight: real, ratio: real, d: Draws)
    : (r: Canvas)
    requires boxWidth >= 0.0 && boxHeight >= 0.0 && ratio > 0.0
    ensures |r.polygons| == |c.polygons|
    ensures !NeedsResize(c.width, c.height, offsetWidth, offsetHeight, ratio) ==> r == c
    ensures NeedsResize(c.width, c.height, offsetWidth, offsetHeight, ratio) ==>
      r.width == Backing(boxWidth, ratio) && r.height == Backing(boxHeight, ratio)
  {
    if NeedsResize(c.width, c.height, offsetWidth, offsetHeight, ratio) then
      var w := Backing(boxWidth, ratio);
      var h := Backing(boxHeight, ratio);
      Canvas(RelocateAll(c.polygons, d, w, h, ratio), w, h)
    else c
  }

  /**
   * The polygons and backing size `downgrade` leaves from quality `q`: the lower density's
   * count of new polygons on the same canvas, every polygon relocated on a canvas sized at
   * ratio 1, or nothing changed at the end of the ladder.
   */
  function AfterDowngrade(c: Canvas, q: Quality, boxWidth: real, boxHeight: real, speed: real, d: Draws): (r: Canvas)
    requires boxWidth >= 0.0 && boxHeight >= 0.0 && q.pixelRatio > 0.0
    ensures DowngradeAction(q) == Regenerate ==>
      |r.polygons| == EntityCount(PolygonCounts, Governor.Downgrade(q).density) && r.width == c.width && r.height == c.height
    ensures DowngradeAction(q) != Regenerate ==> |r.polygons| == |c.polygons|
  {
    match DowngradeAction(q)
    case Regenerate =>
      Canvas(Spawn(EntityCount(PolygonCounts, Governor.Downgrade(q).density), d, c.width, c.height, q.pixelRatio, speed),
        c.width, c.height)
    case Rescale =>
      var w, h := Backing(boxWidth, 1.0), Backing(boxHeight, 1.0);
      Canvas(RelocateAll(c.polygons, d, w, h, 1.0), w, h)
    case Unchanged => c
  }

  /** The polygons and backing size the governor leaves: those of a downgrade when one is due, else `c`. */
  function Governed(c: Canvas, q: Quality, downgrade: bool, boxWidth: real, boxHeight: real, speed: real, d: Draws)
    : Canvas
    requires boxWidth >= 0.0 && boxHeight >= 0.0 && q.pixelRatio > 0.0
  {
    if downgrade then AfterDowngrade(c, q, boxWidth, boxHeight, speed, d) else c
  }

  /** What one frame puts on the canvas: nothing, or each polygon with its vertex radii. */
  datatype Picture = Blank | Drawn(polygons: seq<MorphPolygon>, outlines: seq<seq<real>>)

  /**
   * The frame `render` draws from the canvas `before`: the canvas fitted to the element,
   * every polygon moved by `deltaTime`, and each outlined with the ratio.
   */
  predicate FrameOf(picture: Picture, before: Canvas, offsetWidth: nat, offsetHeight: nat, boxWidth: real,
                    boxHeight: real, ratio: real, d: Draws, deltaTime: real, sine: real -> real)
    requires boxWidth >= 0.0 && boxHeight >= 0.0 && ratio > 0.0
  {
    var c := Fit(before, offsetWidth, offsetHeight, boxWidth, boxHeight, ratio, d);
    picture.Drawn? && picture.polygons == UpdateAll(c.polygons, deltaTime)
    && OutlinedAs(picture.outlines, picture.polygons, ratio, sine)
  }

  /** The closure of `init`: the overlay's state between frames. */
  class Overlay {
    const speed: real
    const reducedMotion: bool
    const capFps: bool
    /** `Math.sin`. */
    const sine: real -> real

    var polygons: seq<MorphPolygon>
    var animationId: Option<nat>
    var isRunning: bool
    var lastTime: real
    var renderTimeSum: real
    var renderTimeCount: nat
    var currentDensity: string
    var currentPixelRatio: real
    /** The canvas backing size, `canvas.width` and `canvas.height`. */
    var width: nat
    var height: nat
    /** Callbacks queued with the browser, and how many frame ids it has handed out. */
    var scheduled: seq<Pending>
    var issued: nat

    /** The meter is inside its window and the pixel ratio is positive. */
    ghost predicate Metered()
      reads this`renderTimeCount, this`currentPixelRatio
    {
      renderTimeCount < Window && currentPixelRatio > 0.0
    }

    /** As many polygons as the density asks, or none, each well shaped. */
    ghost predicate Counted()
      reads this`polygons, this`currentDensity
    {
      && (polygons == [] || |polygons| == EntityCount(PolygonCounts, currentDensity))
      && Formed(polygons)
    }

    /** Metered and counted, and every polygon placed for the current canvas and ratio. */
    ghost predicate Valid()
      reads this`renderTimeCount, this`currentPixelRatio, this`polygons, this`currentDensity, this`width, this`height
    {
      && Metered()
      && Counted()
      && AllPlaced(polygons, width, height, currentPixelRatio)
    }

    function Level(): Quality
      reads this`currentDensity, this`currentPixelRatio
    {
      Quality(currentDensity, currentPixelRatio)
    }

    /** `init(canvas, settings, env)`: size the canvas, then create the polygons. */
    constructor (boxWidth: real, boxHeight: real, speed: real, density: string,
                 pixelRatio: real, reducedMotion: bool, capFps: bool, sine: real -> real, d: Draws)
      requires boxWidth >= 0.0 && boxHeight >= 0.0 && pixelRatio > 0.0
      ensures Valid()
      ensures this.speed == speed && this.reducedMotion == reducedMotion && this.capFps == capFps
      ensures this.sine == sine
      ensures !isRunning && animationId == None && scheduled == [] && issued == 0
      ensures renderTimeSum == 0.0 && renderTimeCount == 0
      ensures currentDensity == density && currentPixelRatio == pixelRatio
      ensures width == Backing(boxWidth, pixelRatio) && height == Backing(boxHeight, pixelRatio)
      ensures polygons == Spawn(EntityCount(PolygonCounts, density), d, width, height, pixelRatio, speed)
    {
      this.speed, this.reducedMotion, this.capFps, this.sine := speed, reducedMotion, capFps, sine;
      animationId, isRunning, lastTime := None, false, 0.0;
      renderTimeSum, renderTimeCount := 0.0, 0;
      currentDensity, currentPixelRatio := density, pixelRatio;
      scheduled, issued := [], 0;
      // `resize` runs before any polygon exists, so all it does is size the canvas.
      var w, h := Backing(boxWidth, pixelRatio), Backing(boxHeight, pixelRatio);
      width, height := w, h;
      var count := EntityCount(PolygonCounts, density);
      var made := MakePolygons(count, d, w, h, pixelRatio, speed);
      SpawnFormed(count, d, w, h, pixelRatio, speed);
      polygons := made;
    }

    /** `initPolygons`: replace the polygons with new ones, as many as the current density asks. */
    method InitPolygons(d: Draws)
      requires Metered()
      modifies this`polygons
      ensures Valid()
      ensures polygons == Spawn(EntityCount(PolygonCounts, currentDensity), d, width, height, currentPixelRatio, speed)
    {
      polygons := MakePolygons(EntityCount(PolygonCounts, currentDensity), d, width, height, currentPixelRatio, speed);
      SpawnFormed(EntityCount(PolygonCounts, currentDensity), d, width, height, currentPixelRatio, speed);
    }

    /** `resize`: size the canvas from the element's box, then give every polygon a new place. */
    method Resize(boxWidth: real, boxHeight: real, d: Draws)
      requires Metered() && Counted() && boxWidth >= 0.0 && boxHeight >= 0.0
      modifies this`width, this`height, this`polygons
      ensures Valid()
      ensures width == Backing(boxWidth, currentPixelRatio) && height == Backing(boxHeight, currentPixelRatio)
      ensures polygons == RelocateAll(old(polygons), d, width, height, currentPixelRatio)
    {
      width := Backing(boxWidth, currentPixelRatio);
      height := Backing(boxHeight, currentPixelRatio);
      var moved: seq<MorphPolygon> := [];
      var i := 0;
      while i < |polygons|
        invariant 0 <= i <= |polygons|
        invariant moved == RelocateAll(polygons[..i], d, width, height, currentPixelRatio)
      {
        assert polygons[..i + 1][..i] == polygons[..i];
        moved := moved + [Relocate(polygons[i], Shift(d, 3 * i), width, height, currentPixelRatio)];
        i := i + 1;
      }
      assert polygons[..i] == polygons;
      RelocateAllPlaced(polygons, d, width, height, currentPixelRatio);
      polygons := moved;
    }

    /** `downgrade`: one step down the ladder, regenerating or resizing as it goes. */
    method Downgrade(boxWidth: real, boxHeight: real, d: Draws)
      requires Valid() && boxWidth >= 0.0 && boxHeight >= 0.0
      modifies this`currentDensity, this`currentPixelRatio, this`polygons, this`width, this`height
      ensures Valid()
      ensures Level() == Governor.Downgrade(old(Level()))
      ensures DowngradeAction(old(Level())) == Regenerate ==>
        polygons == Spawn(EntityCount(PolygonCounts, currentDensity), d, width, height, currentPixelRatio, speed)
        && width == old(width) && height == old(height)
      ensures DowngradeAction(old(Level())) == Rescale ==>
        polygons == RelocateAll(old(polygons), d, width, height, 1.0)
        && width == Backing(boxWidth, 1.0) && height == Backing(boxHeight, 1.0)
      ensures DowngradeAction(old(Level())) == Unchanged ==>
        polygons == old(polygons) && width == old(width) && height == old(height)
      ensures Canvas(polygons, width, height)
        == AfterDowngrade(Canvas(old(polygons), old(width), old(height)), old(Level()), boxWidth, boxHeight, speed, d)
    {
      if currentDensity == "high" {
        currentDensity := "medium";
        InitPolygons(d);
      } else if currentDensity == "medium" {
        currentDensity := "low";
        InitPolygons(d);
      } else if currentPixelRatio > 1.0 {
        currentPixelRatio := 1.0;
        Resize(boxWidth, boxHeight, d);
      }
    }

    /** `requestAnimationFrame(render)`: a new frame id, remembered in `animationId`. */
    method RequestFrame()
      modifies this`issued, this`animationId, this`scheduled
      ensures issued == old(issued) + 1 && animationId == Some(issued)
      ensures scheduled == old(scheduled) + [Frame(issued)]
    {
      issued := issued + 1;
      animationId := Some(issued);
      scheduled := scheduled + [Frame(issued)];
    }

    /**
     * `render(currentTime)`, run when the frame `scheduled[k]` fires: nothing unless running;
     * otherwise draw, feed the governor, and queue the next frame. `renderTime` is what the
     * frame cost; `offsetWidth` and `offsetHeight` are the element's
     * layout size, `boxWidth` and `boxHeight` its bounding box; `d` feeds a resize and
     * `d2` a downgrade.
     */
    method Render(k: nat, currentTime: real, renderTime: real, offsetWidth: nat, offsetHeight: nat,
                  boxWidth: real, boxHeight: real, d: Draws, d2: Draws)
      returns (picture: Picture)
      requires Valid() && k < |scheduled| && scheduled[k].Frame?
      requires boxWidth >= 0.0 && boxHeight >= 0.0
      modifies this
      ensures Valid()
      ensures !old(isRunning) ==> (picture == Blank && scheduled == RemoveAt(old(scheduled), k)
        && polygons == old(polygons) && width == old(width) && height == old(height)
        && Level() == old(Level()) && renderTimeCount == old(renderTimeCount)
        && !isRunning && issued == old(issued) && animationId == old(animationId))
      ensures old(isRunning) ==> (isRunning && lastTime == currentTime && picture.Drawn?
        && |picture.polygons| == |old(polygons)|)
      ensures old(isRunning) ==> FrameOf(picture, Canvas(old(polygons), old(width), old(height)), offsetWidth, offsetHeight,
        boxWidth, boxHeight, old(currentPixelRatio), d, currentTime - old(lastTime), sine)
      ensures old(isRunning) ==> (var s := Sample(Meter(old(renderTimeSum), old(renderTimeCount)), renderTime);
        Meter(renderTimeSum, renderTimeCount) == s.meter
        && Level() == (if s.downgrade then Governor.Downgrade(old(Level())) else old(Level())))
      ensures old(isRunning) ==> (issued >= old(issued) &&
        scheduled == RemoveAt(old(scheduled), k) + [NextRequest(capFps, currentTime - old(lastTime), issued)])
      ensures old(isRunning) ==>
        var c := Fit(Canvas(old(polygons), old(width), old(height)), offsetWidth, offsetHeight, boxWidth, boxHeight,
          old(currentPixelRatio), d);
        var s := Sample(Meter(old(renderTimeSum), old(renderTimeCount)), renderTime);
        Canvas(polygons, width, height)
          == Governed(Canvas(picture.polygons, c.width, c.height), old(Level()), s.downgrade, boxWidth, boxHeight, speed, d2)
      ensures NoBetter(Level(), old(Level()))
    {
      if !isRunning {
        scheduled := RemoveAt(scheduled, k);
        picture := Blank;
        return;
      }
      picture := RunFrame(currentTime, renderTime, offsetWidth, offsetHeight, boxWidth, boxHeight, d, d2);
      // The fired frame leaves the queue; removing it last gives the same queue.
      RemoveAtAppend(old(scheduled), k, NextRequest(capFps, currentTime - old(lastTime), issued));
      scheduled := RemoveAt(scheduled, k);
    }

    /** The body of `render` once it is known to be running: draw, then govern and queue the next callback. */
    method RunFrame(currentTime: real, renderTime: real, offsetWidth: nat, offsetHeight: nat,
                    boxWidth: real, boxHeight: real, d: Draws, d2: Draws)
      returns (picture: Picture)
      requires Valid() && boxWidth >= 0.0 && boxHeight >= 0.0
      modifies this`lastTime, this`polygons, this`width, this`height, this`renderTimeSum, this`renderTimeCount,
        this`currentDensity, this`currentPixelRatio, this`scheduled, this`issued, this`animationId
      ensures Valid()
      ensures lastTime == currentTime && picture.Drawn? && |picture.polygons| == |old(polygons)|
      ensures FrameOf(picture, Canvas(old(polygons), old(width), old(height)), offsetWidth, offsetHeight,
        boxWidth, boxHeight, old(currentPixelRatio), d, currentTime - old(lastTime), sine)
      ensures var s := Sample(Meter(old(renderTimeSum), old(renderTimeCount)), renderTime);
        Meter(renderTimeSum, renderTimeCount) == s.meter
        && Level() == (if s.downgrade then Governor.Downgrade(old(Level())) else old(Level()))
      ensures issued >= old(issued)
      ensures scheduled == old(scheduled) + [NextRequest(capFps, currentTime - old(lastTime), issued)]
      ensures var c := Fit(Canvas(old(polygons), old(width), old(height)), offsetWidth, offsetHeight, boxWidth, boxHeight,
          old(currentPixelRatio), d);
        var s := Sample(Meter(old(renderTimeSum), old(renderTimeCount)), renderTime);
        Canvas(polygons, width, height)
          == Governed(Canvas(picture.polygons, c.width, c.height), old(Level()), s.downgrade, boxWidth, boxHeight, speed, d2)
      ensures NoBetter(Level(), old(Level()))
    {
      var deltaTime := currentTime - lastTime;
      picture := Step(currentTime, offsetWidth, offsetHeight, boxWidth, boxHeight, d);
      Finish(deltaTime, renderTime, boxWidth, boxHeight, d2);
    }

    /** The start of `render` once it is known to be running: take the time, then draw. */
    method Step(currentTime: real, offsetWidth: nat, offsetHeight: nat, boxWidth: real, boxHeight: real, d: Draws)
      returns (picture: Picture)
      requires Valid() && boxWidth >= 0.0 && boxHeight >= 0.0
      modifies this`lastTime, this`polygons, this`width, this`height
      ensures Valid()
      ensures lastTime == currentTime && picture.Drawn? && |picture.polygons| == |old(polygons)|
      ensures FrameOf(picture, Canvas(old(polygons), old(width), old(height)), offsetWidth, offsetHeight,
        boxWidth, boxHeight, currentPixelRatio, d, currentTime - old(lastTime), sine)
      ensures var c := Fit(Canvas(old(polygons), old(width), old(height)), offsetWidth, offsetHeight, boxWidth, boxHeight,
          currentPixelRatio, d);
        polygons == picture.polygons && width == c.width && height == c.height
    {
      var deltaTime := currentTime - lastTime;
      lastTime := currentTime;
      picture := Draw(deltaTime, offsetWidth, offsetHeight, boxWidth, boxHeight, d);
    }

    /** The end of `render` after drawing: the governor, then the next frame. */
    method Finish(deltaTime: real, renderTime: real, boxWidth: real, boxHeight: real, d: Draws)
      requires Valid() && boxWidth >= 0.0 && boxHeight >= 0.0
      modifies this`polygons, this`width, this`height, this`renderTimeSum, this`renderTimeCount,
        this`currentDensity, this`currentPixelRatio, this`scheduled, this`issued, this`animationId
      ensures Valid()
      ensures var s := Sample(Meter(old(renderTimeSum), old(renderTimeCount)), renderTime);
        Meter(renderTimeSum, renderTimeCount) == s.meter
        && Level() == (if s.downgrade then Governor.Downgrade(old(Level())) else old(Level()))
      ensures issued >= old(issued)
      ensures scheduled == old(scheduled) + [NextRequest(capFps, deltaTime, issued)]
      ensures var s := Sample(Meter(old(renderTimeSum), old(renderTimeCount)), renderTime);
        Canvas(polygons, width, height)
          == Governed(Canvas(old(polygons), old(width), old(height)), old(Level()), s.downgrade, boxWidth, boxHeight, speed, d)
      ensures NoBetter(Level(), old(Level()))
    {
      Govern(renderTime, boxWidth, boxHeight, d);
      Reschedule(deltaTime);
    }

    /**
     * The drawing half of `render`: resize when the layout size no longer matches, then update every polygon
     * and outline it with the current ratio.
     */
    method Draw(deltaTime: real, offsetWidth: nat, offsetHeight: nat, boxWidth: real, boxHeight: real, d: Draws)
      returns (picture: Picture)
      requires Valid() && boxWidth >= 0.0 && boxHeight >= 0.0
      modifies this`polygons, this`width, this`height
      ensures Valid()
      ensures picture.Drawn? && picture.polygons == polygons && |polygons| == |old(polygons)|
      ensures OutlinedAs(picture.outlines, polygons, currentPixelRatio, sine)
      ensures FrameOf(picture, Canvas(old(polygons), old(width), old(height)), offsetWidth, offsetHeight,
        boxWidth, boxHeight, currentPixelRatio, d, deltaTime, sine)
      ensures var c := Fit(Canvas(old(polygons), old(width), old(height)), offsetWidth, offsetHeight, boxWidth, boxHeight, currentPixelRatio, d);
        width == c.width && height == c.height && polygons == UpdateAll(c.polygons, deltaTime)
    {
      FitCanvas(offsetWidth, offsetHeight, boxWidth, boxHeight, d);
      var moved, outlines := UpdateAndOutline(polygons, deltaTime, currentPixelRatio, sine);
      polygons := moved;
      picture := Drawn(polygons, outlines);
    }

    /** The resize check at the top of `render`. */
    method FitCanvas(offsetWidth: nat, offsetHeight: nat, boxWidth: real, boxHeight: real, d: Draws)
      requires Valid() && boxWidth >= 0.0 && boxHeight >= 0.0
      modifies this`polygons, this`width, this`height
      ensures Valid()
      ensures Canvas(polygons, width, height)
        == Fit(Canvas(old(polygons), old(width), old(height)), offsetWidth, offsetHeight, boxWidth, boxHeight, currentPixelRatio, d)
    {
      if NeedsResize(width, height, offsetWidth, offsetHeight, currentPixelRatio) {
        Resize(boxWidth, boxHeight, d);
      }
    }

    /**
     * The governor half of `render`: count the frame's cost and, every 60 frames, downgrade
     * when the average exceeded 25 ms, then restart the window.
     */
    method Govern(renderTime: real, boxWidth: real, boxHeight: real, d: Draws)
      requires Valid() && boxWidth >= 0.0 && boxHeight >= 0.0
      modifies this`renderTimeSum, this`renderTimeCount, this`currentDensity, this`currentPixelRatio,
        this`polygons, this`width, this`height
      ensures Valid()
      ensures var s := Sample(Meter(old(renderTimeSum), old(renderTimeCount)), renderTime);
        Meter(renderTimeSum, renderTimeCount) == s.meter
        && (s.downgrade ==> Level() == Governor.Downgrade(old(Level())))
        && (!s.downgrade ==> Level() == old(Level()) && polygons == old(polygons))
      ensures var s := Sample(Meter(old(renderTimeSum), old(renderTimeCount)), renderTime);
        Canvas(polygons, width, height)
          == Governed(Canvas(old(polygons), old(width), old(height)), old(Level()), s.downgrade, boxWidth, boxHeight, speed, d)
      ensures NoBetter(Level(), old(Level()))
    {
      var s := Sample(Meter(renderTimeSum, renderTimeCount), renderTime);
      if s.downgrade {
        Downgrade(boxWidth, boxHeight, d);
      }
      renderTimeSum, renderTimeCount := s.meter.renderTimeSum, s.meter.renderTimeCount;
    }

    /** The end of `render`: under the 30 fps cap a timer for the rest of 33 ms, else a frame. */
    method Reschedule(deltaTime: real)
      modifies this`scheduled, this`issued, this`animationId
      ensures issued >= old(issued)
      ensures scheduled == old(scheduled) + [NextRequest(capFps, deltaTime, issued)]
      ensures (capFps && deltaTime < 33.0) ==> issued == old(issued) && animationId == old(animationId)
      ensures !(capFps && deltaTime < 33.0) ==> issued == old(issued) + 1 && animationId == Some(issued)
    {
      if capFps && deltaTime < 33.0 {
        scheduled := scheduled + [CapDelay(33.0 - deltaTime)];
      } else {
        RequestFrame();
      }
    }

    /** The 30 fps cap's timer `scheduled[k]` fires: it requests a frame, running or not. */
    method FireCapDelay(k: nat)
      requires k < |scheduled| && scheduled[k].CapDelay?
      modifies this`scheduled, this`issued, this`animationId
      ensures issued == old(issued) + 1 && animationId == Some(issued)
      ensures scheduled == RemoveAt(old(scheduled), k) + [Frame(issued)]
    {
      scheduled := RemoveAt(scheduled, k);
      RequestFrame();
    }

    /** `start`: nothing when already running or under reduced motion; else request the first frame. */
    method Start(now: real)
      modifies this`isRunning, this`lastTime, this`issued, this`animationId, this`scheduled
      ensures old(isRunning) || reducedMotion ==>
        isRunning == old(isRunning) && lastTime == old(lastTime) && issued == old(issued)
        && animationId == old(animationId) && scheduled == old(scheduled)
      ensures !old(isRunning) && !reducedMotion ==>
        isRunning && lastTime == now && issued == old(issued) + 1 && animationId == Some(issued)
        && scheduled == old(scheduled) + [Frame(issued)]
    {
      if isRunning {
        return;
      }
      if reducedMotion {
        return;
      }
      isRunning := true;
      lastTime := now;
      RequestFrame();
    }

    /** `stop`: not running, the remembered frame cancelled, the canvas cleared; the polygons stay. */
    method Stop()
      modifies this`isRunning, this`animationId, this`scheduled
      ensures !isRunning && animationId == None
      ensures old(animationId).Some? ==> scheduled == CancelFrame(old(scheduled), old(animationId).value)
      ensures old(animationId).None? ==> scheduled == old(scheduled)
    {
      isRunning := false;
      if animationId.Some? {
        scheduled := CancelFrame(scheduled, animationId.value);
        animationId := None;
      }
    }

    /** `destroy`: stop, then drop every polygon. */
    method Destroy()
      requires Valid()
      modifies this`isRunning, this`animationId, this`scheduled, this`polygons
      ensures Valid()
      ensures !isRunning && animationId == None && polygons == []
      ensures old(animationId).Some? ==> scheduled == CancelFrame(old(scheduled), old(animationId).value)
      ensures old(animationId).None? ==> scheduled == old(scheduled)
    {
      Stop();
      polygons := [];
    }
  }

  /**
   * A high-density overlay starts with 8 polygons, whatever its box and ratio; a downgrade
   * regenerates 5, and a second one 3.
   */
  method RegenerateOnDowngrade(boxWidth: real, boxHeight: real, speed: real, pixelRatio: real,
                              sine: real -> real, d: Draws) returns (counts: seq<nat>)
    requires boxWidth >= 0.0 && boxHeight >= 0.0 && pixelRatio > 0.0
    ensures counts == [8, 5, 3]
  {
    var o := new Overlay(boxWidth, boxHeight, speed, "high", pixelRatio, false, true, sine, d);
    var first := |o.polygons|;
    o.Downgrade(boxWidth, boxHeight, d);
    var second := |o.polygons|;
    o.Downgrade(boxWidth, boxHeight, d);
    counts := [first, second, |o.polygons|];
  }
}
