/**
 * The particle-link overlay of assets/js/overlays/constellation.js: the closure state of
 * `init` as a class, the particles as values in a sequence the closure reassigns, and
 * `Math.random()` as a supply of draws passed to every operation that consumes it.
 */
module Constellation {
  import opened Common
  import opened Governor

  /** A particle: position and velocity in canvas pixels. */
  datatype Particle = Particle(x: real, y: real, vx: real, vy: real)

  /** A particle inside a canvas of `width` x `height`, edges included. */
  predicate OnCanvas(p: Particle, width: nat, height: nat)
  {
    0.0 <= p.x <= width as real && 0.0 <= p.y <= height as real
  }

  /** `reset`: a new position drawn uniformly over the canvas; the velocity is kept. */
  function Reset(p: Particle, d: Draws, width: nat, height: nat): (r: Particle)
    ensures OnCanvas(r, width, height) && r.vx == p.vx && r.vy == p.vy
    ensures width > 0 ==> r.x < width as real
    ensures height > 0 ==> r.y < height as real
  {
    p.(x := Scaled(d(0), width as real), y := Scaled(d(1), height as real))
  }

  /** The constructor: `reset`, then each velocity component from a draw, at most `speed / 4`. */
  function NewParticle(d: Draws, width: nat, height: nat, speed: real): (r: Particle)
    ensures OnCanvas(r, width, height)
    ensures speed >= 0.0 ==> -speed / 4.0 <= r.vx <= speed / 4.0 && -speed / 4.0 <= r.vy <= speed / 4.0
  {
    var placed := Reset(Particle(0.0, 0.0, 0.0, 0.0), d, width, height);
    var r := placed.(vx := (d(2) - 0.5) * 0.5 * speed, vy := (d(3) - 0.5) * 0.5 * speed);
    if speed >= 0.0 then CenteredDraw(d(2), speed); CenteredDraw(d(3), speed); r else r
  }

  /** One coordinate after moving: below 0 it jumps to the far edge, beyond the edge to 0. */
  function Wrap(v: real, extent: nat): (r: real)
    ensures 0.0 <= r <= extent as real
    ensures 0.0 <= v <= extent as real ==> r == v
    ensures v < 0.0 ==> r == extent as real
    ensures v > extent as real ==> r == 0.0
  {
    var w := if v < 0.0 then extent as real else v;
    if w > extent as real then 0.0 else w
  }

  /** `update(deltaTime)`: move by the velocity times `deltaTime / 100`, wrapping at the edges. */
  function Move(p: Particle, deltaTime: real, width: nat, height: nat): (r: Particle)
    ensures OnCanvas(r, width, height) && r.vx == p.vx && r.vy == p.vy
    ensures var nx := p.x + p.vx * deltaTime * 0.01;
      0.0 <= nx <= width as real ==> r.x == nx
    ensures var ny := p.y + p.vy * deltaTime * 0.01;
      0.0 <= ny <= height as real ==> r.y == ny
  {
    Particle(
      Wrap(p.x + p.vx * deltaTime * 0.01, width),
      Wrap(p.y + p.vy * deltaTime * 0.01, height),
      p.vx, p.vy)
  }

  /** The `n` particles `initParticles` creates; particle `i` uses draws `4i` to `4i + 3`. */
  function Spawn(n: nat, d: Draws, width: nat, height: nat, speed: real): (r: seq<Particle>)
    ensures |r| == n
    ensures forall i :: 0 <= i < n ==> OnCanvas(r[i], width, height)
  {
    if n == 0 then [] else Spawn(n - 1, d, width, height, speed) + [NewParticle(Shift(d, 4 * (n - 1)), width, height, speed)]
  }

  /** Every particle `reset` in turn; particle `i` uses draws `2i` and `2i + 1`. */
  function ResetAll(ps: seq<Particle>, d: Draws, width: nat, height: nat): (r: seq<Particle>)
    ensures |r| == |ps|
    ensures forall i :: 0 <= i < |r| ==> OnCanvas(r[i], width, height) && r[i].vx == ps[i].vx && r[i].vy == ps[i].vy
  {
    if ps == [] then []
    else ResetAll(ps[..|ps| - 1], d, width, height) + [Reset(ps[|ps| - 1], Shift(d, 2 * (|ps| - 1)), width, height)]
  }

  /** Every particle moved in turn. */
  function MoveAll(ps: seq<Particle>, deltaTime: real, width: nat, height: nat): (r: seq<Particle>)
    ensures |r| == |ps|
    ensures forall i :: 0 <= i < |r| ==> OnCanvas(r[i], width, height)
  {
    if ps == [] then [] else MoveAll(ps[..|ps| - 1], deltaTime, width, height) + [Move(ps[|ps| - 1], deltaTime, width, height)]
  }

  // --------------------------------------------------------------- connections

  /** A line drawn between particles `i` and `j`. */
  datatype Link = Link(i: nat, j: nat)

  /** `(120 * pixelRatio)^2`: the squared distance below which two particles are linked. */
  function MaxDistanceSquared(ratio: real): real
  {
    (120.0 * ratio) * (120.0 * ratio)
  }

  predicate Close(a: Particle, b: Particle, maxSq: real)
  {
    (a.x - b.x) * (a.x - b.x) + (a.y - b.y) * (a.y - b.y) < maxSq
  }

  /** Row-major order of pairs: by first index, then by second. */
  predicate Before(a: Link, b: Link)
  {
    a.i < b.i || (a.i == b.i && a.j < b.j)
  }

  /**
   * The lines `drawConnections` draws: every unordered pair `i < j` of close particles,
   * and nothing else, each exactly once, in the order of the two loops.
   */
  ghost predicate ConnectionList(lines: seq<Link>, ps: seq<Particle>, maxSq: real)
  {
    && (forall p :: 0 <= p < |lines| ==>
          lines[p].i < lines[p].j < |ps| && Close(ps[lines[p].i], ps[lines[p].j], maxSq))
    && (forall a, b :: 0 <= a < b < |ps| && Close(ps[a], ps[b], maxSq) ==> Link(a, b) in lines)
    && (forall p, q :: 0 <= p < q < |lines| ==> Before(lines[p], lines[q]))
  }

  /** A list in strictly increasing order never lists the same pair twice. */
  lemma ConnectionListDistinct(lines: seq<Link>, ps: seq<Particle>, maxSq: real)
    requires ConnectionList(lines, ps, maxSq)
    ensures forall p, q :: 0 <= p < q < |lines| ==> lines[p] != lines[q]
  {
  }

  /** The links from particle `i` to the close particles strictly between `i` and `j`, by `j`. */
  function LinksBelow(ps: seq<Particle>, i: nat, j: nat, maxSq: real): seq<Link>
    requires i < j <= |ps|
    decreases j
  {
    if j == i + 1 then []
    else LinksBelow(ps, i, j - 1, maxSq) + (if Close(ps[i], ps[j - 1], maxSq) then [Link(i, j - 1)] else [])
  }

  /** Link `l` starts at `i` and ends at a close particle strictly between `i` and `j`. */
  predicate LinkedBelow(l: Link, ps: seq<Particle>, i: nat, j: nat, maxSq: real)
  {
    l.i == i && i < l.j < j && j <= |ps| && Close(ps[i], ps[l.j], maxSq)
  }

  /** Every link of `LinksBelow` starts at `i` and ends at a close particle below `j`. */
  lemma {:induction false} LinksBelowClose(ps: seq<Particle>, i: nat, j: nat, maxSq: real)
    requires i < j <= |ps|
    ensures forall p :: 0 <= p < |LinksBelow(ps, i, j, maxSq)| ==>
      LinkedBelow(LinksBelow(ps, i, j, maxSq)[p], ps, i, j, maxSq)
    decreases j
  {
    if j > i + 1 {
      LinksBelowClose(ps, i, j - 1, maxSq);
      var prev := LinksBelow(ps, i, j - 1, maxSq);
      var l := LinksBelow(ps, i, j, maxSq);
      var tail := if Close(ps[i], ps[j - 1], maxSq) then [Link(i, j - 1)] else [];
      assert l == prev + tail;
      forall p | 0 <= p < |l|
        ensures LinkedBelow(l[p], ps, i, j, maxSq)
      {
        if p < |prev| {
          assert l[p] == prev[p];
          assert LinkedBelow(prev[p], ps, i, j - 1, maxSq);
        } else {
          assert l[p] == tail[0] == Link(i, j - 1);
        }
      }
    }
  }

  /** Every close particle strictly between `i` and `j` has its link. */
  lemma {:induction false} LinksBelowComplete(ps: seq<Particle>, i: nat, j: nat, maxSq: real)
    requires i < j <= |ps|
    ensures forall b :: i < b < j && Close(ps[i], ps[b], maxSq) ==> Link(i, b) in LinksBelow(ps, i, j, maxSq)
    decreases j
  {
    if j > i + 1 {
      LinksBelowComplete(ps, i, j - 1, maxSq);
      var prev := LinksBelow(ps, i, j - 1, maxSq);
      var l := LinksBelow(ps, i, j, maxSq);
      var tail := if Close(ps[i], ps[j - 1], maxSq) then [Link(i, j - 1)] else [];
      assert l == prev + tail;
      forall b | i < b < j && Close(ps[i], ps[b], maxSq)
        ensures Link(i, b) in l
      {
        if b < j - 1 {
          assert Link(i, b) in prev;
        } else {
          assert l[|l| - 1] == Link(i, b);
        }
      }
    }
  }

  /** The links of `LinksBelow` are in increasing order of their second particle. */
  lemma {:induction false} LinksBelowAscending(ps: seq<Particle>, i: nat, j: nat, maxSq: real)
    requires i < j <= |ps|
    ensures forall p, q :: 0 <= p < q < |LinksBelow(ps, i, j, maxSq)| ==>
      LinksBelow(ps, i, j, maxSq)[p].j < LinksBelow(ps, i, j, maxSq)[q].j
    decreases j
  {
    if j > i + 1 {
      LinksBelowAscending(ps, i, j - 1, maxSq);
      LinksBelowClose(ps, i, j - 1, maxSq);
      var prev := LinksBelow(ps, i, j - 1, maxSq);
      var l := LinksBelow(ps, i, j, maxSq);
      var tail := if Close(ps[i], ps[j - 1], maxSq) then [Link(i, j - 1)] else [];
      assert l == prev + tail;
      forall p, q | 0 <= p < q < |l|
        ensures l[p].j < l[q].j
      {
        assert l[p] == prev[p];
        assert LinkedBelow(prev[p], ps, i, j - 1, maxSq);
        if q < |prev| {
          assert l[q] == prev[q];
        } else {
          assert l[q] == tail[0] == Link(i, j - 1);
        }
      }
    }
  }

  /** The links of the rows before `i`: row `a` lists the close particles `b > a`, by `b`. */
  function LinksUpTo(ps: seq<Particle>, i: nat, maxSq: real): seq<Link>
    requires i <= |ps|
  {
    if i == 0 then [] else LinksUpTo(ps, i - 1, maxSq) + LinksBelow(ps, i - 1, |ps|, maxSq)
  }

  /** Link `l` joins two close particles and starts below `i`. */
  predicate LinkedUnder(l: Link, ps: seq<Particle>, i: nat, maxSq: real)
  {
    l.i < i && l.i < l.j < |ps| && Close(ps[l.i], ps[l.j], maxSq)
  }

  /** Every link of the rows before `i` joins two close particles and starts below `i`. */
  lemma {:induction false} LinksUpToClose(ps: seq<Particle>, i: nat, maxSq: real)
    requires i <= |ps|
    ensures forall p :: 0 <= p < |LinksUpTo(ps, i, maxSq)| ==> LinkedUnder(LinksUpTo(ps, i, maxSq)[p], ps, i, maxSq)
  {
    if i > 0 {
      LinksUpToClose(ps, i - 1, maxSq);
      LinksBelowClose(ps, i - 1, |ps|, maxSq);
      var prev, row := LinksUpTo(ps, i - 1, maxSq), LinksBelow(ps, i - 1, |ps|, maxSq);
      var all := LinksUpTo(ps, i, maxSq);
      assert all == prev + row;
      forall p | 0 <= p < |all|
        ensures LinkedUnder(all[p], ps, i, maxSq)
      {
        if p < |prev| {
          assert all[p] == prev[p];
          assert LinkedUnder(prev[p], ps, i - 1, maxSq);
        } else {
          assert all[p] == row[p - |prev|];
          assert LinkedBelow(row[p - |prev|], ps, i - 1, |ps|, maxSq);
        }
      }
    }
  }

  /** Every pair of close particles whose first is below `i` is linked in the rows before `i`. */
  lemma {:induction false} LinksUpToComplete(ps: seq<Particle>, i: nat, maxSq: real)
    requires i <= |ps|
    ensures forall a, b :: 0 <= a < b < |ps| && a < i && Close(ps[a], ps[b], maxSq) ==> Link(a, b) in LinksUpTo(ps, i, maxSq)
  {
    if i > 0 {
      LinksUpToComplete(ps, i - 1, maxSq);
      LinksBelowComplete(ps, i - 1, |ps|, maxSq);
      var prev, row := LinksUpTo(ps, i - 1, maxSq), LinksBelow(ps, i - 1, |ps|, maxSq);
      var all := LinksUpTo(ps, i, maxSq);
      assert all == prev + row;
      forall a, b | 0 <= a < b < |ps| && a < i && Close(ps[a], ps[b], maxSq)
        ensures Link(a, b) in all
      {
        if a < i - 1 {
          assert Link(a, b) in prev;
        } else {
          assert Link(a, b) in row;
        }
      }
    }
  }

  /** The rows before `i` list their links in row-major order. */
  lemma {:induction false} LinksUpToOrdered(ps: seq<Particle>, i: nat, maxSq: real)
    requires i <= |ps|
    ensures forall p, q :: 0 <= p < q < |LinksUpTo(ps, i, maxSq)| ==>
      Before(LinksUpTo(ps, i, maxSq)[p], LinksUpTo(ps, i, maxSq)[q])
  {
    if i > 0 {
      LinksUpToOrdered(ps, i - 1, maxSq);
      LinksUpToClose(ps, i - 1, maxSq);
      LinksBelowClose(ps, i - 1, |ps|, maxSq);
      LinksBelowAscending(ps, i - 1, |ps|, maxSq);
      var prev, row := LinksUpTo(ps, i - 1, maxSq), LinksBelow(ps, i - 1, |ps|, maxSq);
      var all := LinksUpTo(ps, i, maxSq);
      assert all == prev + row;
      forall p, q | 0 <= p < q < |all|
        ensures Before(all[p], all[q])
      {
        if q < |prev| {
          assert all[p] == prev[p] && all[q] == prev[q];
        } else if p >= |prev| {
          assert all[p] == row[p - |prev|] && all[q] == row[q - |prev|];
        } else {
          assert all[p] == prev[p] && all[q] == row[q - |prev|];
          assert LinkedUnder(prev[p], ps, i - 1, maxSq);
          assert LinkedBelow(row[q - |prev|], ps, i - 1, |ps|, maxSq);
        }
      }
    }
  }

  /**
   * The inner loop of `drawConnections` for particle `i`: the close particles `j > i`,
   * appended in increasing order.
   */
  method LinksFrom(ps: seq<Particle>, i: nat, maxSq: real, lines: seq<Link>) returns (out: seq<Link>)
    requires i < |ps|
    ensures out == lines + LinksBelow(ps, i, |ps|, maxSq)
  {
    out := lines;
    var j := i + 1;
    while j < |ps|
      invariant i + 1 <= j <= |ps|
      invariant out == lines + LinksBelow(ps, i, j, maxSq)
    {
      var dx := ps[i].x - ps[j].x;
      var dy := ps[i].y - ps[j].y;
      ghost var row := LinksBelow(ps, i, j, maxSq);
      assert LinksBelow(ps, i, j + 1, maxSq) == row + (if Close(ps[i], ps[j], maxSq) then [Link(i, j)] else []);
      if dx * dx + dy * dy < maxSq {
        assert Close(ps[i], ps[j], maxSq);
        out := out + [Link(i, j)];
        assert out == lines + (row + [Link(i, j)]);
      } else {
        assert !Close(ps[i], ps[j], maxSq);
        assert row + [] == row;
      }
      j := j + 1;
    }
  }

  /** `drawConnections`: the two nested loops over `i < j`, testing squared distances. */
  method DrawConnections(ps: seq<Particle>, ratio: real) returns (lines: seq<Link>)
    ensures ConnectionList(lines, ps, MaxDistanceSquared(ratio))
  {
    var maxSq := MaxDistanceSquared(ratio);
    lines := [];
    var i := 0;
    while i < |ps|
      invariant 0 <= i <= |ps|
      invariant lines == LinksUpTo(ps, i, maxSq)
    {
      lines := LinksFrom(ps, i, maxSq, lines);
      i := i + 1;
    }
    LinksUpToClose(ps, |ps|, maxSq);
    LinksUpToComplete(ps, |ps|, maxSq);
    LinksUpToOrdered(ps, |ps|, maxSq);
    assert forall p :: 0 <= p < |lines| ==> LinkedUnder(lines[p], ps, |ps|, maxSq);
  }

  /** The particles with the canvas backing size they move on. */
  datatype Canvas = Canvas(particles: seq<Particle>, width: nat, height: nat)

  /**
   * The particles and backing size `downgrade` leaves from quality `q`: the lower density's
   * count of new particles on the same canvas, every particle reset on a canvas sized at
   * ratio 1, or nothing changed at the end of the ladder.
   */
  function AfterDowngrade(c: Canvas, q: Quality, boxWidth: real, boxHeight: real, speed: real, d: Draws): (r: Canvas)
    requires boxWidth >= 0.0 && boxHeight >= 0.0
    ensures DowngradeAction(q) == Regenerate ==>
      |r.particles| == EntityCount(ParticleCounts, Governor.Downgrade(q).density) && r.width == c.width && r.height == c.height
    ensures DowngradeAction(q) != Regenerate ==> |r.particles| == |c.particles|
  {
    match DowngradeAction(q)
    case Regenerate =>
      Canvas(Spawn(EntityCount(ParticleCounts, Governor.Downgrade(q).density), d, c.width, c.height, speed), c.width, c.height)
    case Rescale =>
      var w, h := Backing(boxWidth, 1.0), Backing(boxHeight, 1.0);
      Canvas(ResetAll(c.particles, d, w, h), w, h)
    case Unchanged => c
  }

  /** The particles and backing size the governor leaves: those of a downgrade when one is due, else `c`. */
  function Governed(c: Canvas, q: Quality, downgrade: bool, boxWidth: real, boxHeight: real, speed: real, d: Draws)
    : Canvas
    requires boxWidth >= 0.0 && boxHeight >= 0.0
  {
    if downgrade then AfterDowngrade(c, q, boxWidth, boxHeight, speed, d) else c
  }

  /** What one frame puts on the canvas: nothing, or the particles and the lines between them. */
  datatype Picture = Blank | Drawn(particles: seq<Particle>, lines: seq<Link>)

  /** The closure of `init`: the overlay's state between frames. */
  class Overlay {
    const speed: real
    const reducedMotion: bool
    const capFps: bool

    var particles: seq<Particle>
    var animationId: Option<nat>
    var isRunning: bool
    var lastTime: real
    var renderTimeSum: real
    var renderTimeCount: nat
    var currentDensity: string
    var currentPixelRatio: real
    /** The canvas backing size, `canvas.width` and `canvas.height`. */
    var width: nat
    var height: nat
    /** Callbacks queued with the browser, and how many frame ids it has handed out. */
    var scheduled: seq<Pending>
    var issued: nat

    /** The meter is inside its window and the pixel ratio is positive. */
    ghost predicate Metered()
      reads this`renderTimeCount, this`currentPixelRatio
    {
      renderTimeCount < Window && currentPixelRatio > 0.0
    }

    /** Metered, and the particles are all on the canvas, as many as the density asks (or none). */
    ghost predicate Valid()
      reads this`renderTimeCount, this`currentPixelRatio, this`particles, this`currentDensity, this`width, this`height
    {
      && Metered()
      && (particles == [] || |particles| == EntityCount(ParticleCounts, currentDensity))
      && (forall i :: 0 <= i < |particles| ==> OnCanvas(particles[i], width, height))
    }

    function Level(): Quality
      reads this`currentDensity, this`currentPixelRatio
    {
      Quality(currentDensity, currentPixelRatio)
    }

    /** `init(canvas, settings, env)`: size the canvas, then create the particles. */
    constructor (boxWidth: real, boxHeight: real, speed: real, density: string,
                 pixelRatio: real, reducedMotion: bool, capFps: bool, d: Draws)
      requires boxWidth >= 0.0 && boxHeight >= 0.0 && pixelRatio > 0.0
      ensures Valid()
      ensures this.speed == speed && this.reducedMotion == reducedMotion && this.capFps == capFps
      ensures !isRunning && animationId == None && scheduled == [] && issued == 0
      ensures renderTimeSum == 0.0 && renderTimeCount == 0
      ensures currentDensity == density && currentPixelRatio == pixelRatio
      ensures width == Backing(boxWidth, pixelRatio) && height == Backing(boxHeight, pixelRatio)
      ensures particles == Spawn(EntityCount(ParticleCounts, density), d, width, height, speed)
    {
      this.speed, this.reducedMotion, this.capFps := speed, reducedMotion, capFps;
      particles, animationId, isRunning, lastTime := [], None, false, 0.0;
      renderTimeSum, renderTimeCount := 0.0, 0;
      currentDensity, currentPixelRatio := density, pixelRatio;
      width, height := 0, 0;
      scheduled, issued := [], 0;
      new;
      Resize(boxWidth, boxHeight, d);
      InitParticles(d);
    }

    /** `initParticles`: replace the particles with new ones, as many as the current density asks. */
    method InitParticles(d: Draws)
      requires Metered()
      modifies this`particles
      ensures Valid()
      ensures particles == Spawn(EntityCount(ParticleCounts, currentDensity), d, width, height, speed)
    {
      var count := EntityCount(ParticleCounts, currentDensity);
      var spawned: seq<Particle> := [];
      var i := 0;
      while i < count
        invariant 0 <= i <= count
        invariant spawned == Spawn(i, d, width, height, speed)
      {
        spawned := spawned + [NewParticle(Shift(d, 4 * i), width, height, speed)];
        i := i + 1;
      }
      particles := spawned;
    }

    /** `resize`: size the canvas from the element's box, then give every particle a new position. */
    method Resize(boxWidth: real, boxHeight: real, d: Draws)
      requires Valid() && boxWidth >= 0.0 && boxHeight >= 0.0
      modifies this`width, this`height, this`particles
      ensures Valid()
      ensures width == Backing(boxWidth, currentPixelRatio) && height == Backing(boxHeight, currentPixelRatio)
      ensures particles == ResetAll(old(particles), d, width, height)
      ensures |particles| == |old(particles)|
    {
      width := Backing(boxWidth, currentPixelRatio);
      height := Backing(boxHeight, currentPixelRatio);
      var moved: seq<Particle> := [];
      var i := 0;
      while i < |particles|
        invariant 0 <= i <= |particles|
        invariant moved == ResetAll(particles[..i], d, width, height)
      {
        assert particles[..i + 1][..i] == particles[..i];
        moved := moved + [Reset(particles[i], Shift(d, 2 * i), width, height)];
        i := i + 1;
      }
      assert particles[..i] == particles;
      particles := moved;
    }

    /** The `forEach` of `render` calling `update(deltaTime)` on every particle. */
    method Advance(deltaTime: real)
      requires Valid()
      modifies this`particles
      ensures Valid()
      ensures particles == MoveAll(old(particles), deltaTime, width, height)
    {
      var moved: seq<Particle> := [];
      var i := 0;
      while i < |particles|
        invariant 0 <= i <= |particles|
        invariant moved == MoveAll(particles[..i], deltaTime, width, height)
      {
        assert particles[..i + 1][..i] == particles[..i];
        moved := moved + [Move(particles[i], deltaTime, width, height)];
        i := i + 1;
      }
      assert particles[..i] == particles;
      particles := moved;
    }

    /** `downgrade`: one step down the ladder, regenerating or resizing as it goes. */
    method Downgrade(boxWidth: real, boxHeight: real, d: Draws)
      requires Valid() && boxWidth >= 0.0 && boxHeight >= 0.0
      modifies this`currentDensity, this`currentPixelRatio, this`particles, this`width, this`height
      ensures Valid()
      ensures Level() == Governor.Downgrade(old(Level()))
      ensures DowngradeAction(old(Level())) == Regenerate ==>
        particles == Spawn(EntityCount(ParticleCounts, currentDensity), d, width, height, speed)
        && width == old(width) && height == old(height)
      ensures DowngradeAction(old(Level())) == Rescale ==>
        particles == ResetAll(old(particles), d, width, height)
        && width == Backing(boxWidth, 1.0) && height == Backing(boxHeight, 1.0)
      ensures DowngradeAction(old(Level())) == Unchanged ==>
        particles == old(particles) && width == old(width) && height == old(height)
      ensures Canvas(particles, width, height)
        == AfterDowngrade(Canvas(old(particles), old(width), old(height)), old(Level()), boxWidth, boxHeight, speed, d)
    {
      if currentDensity == "high" {
        currentDensity := "medium";
        InitParticles(d);
      } else if currentDensity == "medium" {
        currentDensity := "low";
        InitParticles(d);
      } else if currentPixelRatio > 1.0 {
        currentPixelRatio := 1.0;
        Resize(boxWidth, boxHeight, d);
      }
    }

    /** `requestAnimationFrame(render)`: a new frame id, remembered in `animationId`. */
    method RequestFrame()
      modifies this`issued, this`animationId, this`scheduled
      ensures issued == old(issued) + 1 && animationId == Some(issued)
      ensures scheduled == old(scheduled) + [Frame(issued)]
    {
      issued := issued + 1;
      animationId := Some(issued);
      scheduled := scheduled + [Frame(issued)];
    }

    /**
     * `render(currentTime)`, run when the frame `scheduled[k]` fires: nothing unless running;
     * otherwise draw, feed the governor, and queue the next frame. `renderTime` is what the
     * frame cost (measured by `performance.now()` in the source); `offsetWidth` and
     * `offsetHeight` are the element's layout size, `boxWidth` and `boxHeight` its bounding
     * box; `d` feeds a resize and `d2` a downgrade.
     */
    method Render(k: nat, currentTime: real, renderTime: real, offsetWidth: nat, offsetHeight: nat,
                  boxWidth: real, boxHeight: real, d: Draws, d2: Draws)
      returns (picture: Picture)
      requires Valid() && k < |scheduled| && scheduled[k].Frame?
      requires boxWidth >= 0.0 && boxHeight >= 0.0
      modifies this
      ensures Valid()
      ensures !old(isRunning) ==> (picture == Blank && scheduled == RemoveAt(old(scheduled), k)
        && particles == old(particles) && width == old(width) && height == old(height)
        && Level() == old(Level()) && renderTimeCount == old(renderTimeCount)
        && !isRunning && issued == old(issued) && animationId == old(animationId))
      ensures old(isRunning) ==> (isRunning && lastTime == currentTime && picture.Drawn?
        && |picture.particles| == |old(particles)|)
      ensures old(isRunning) ==>
        ConnectionList(picture.lines, picture.particles, MaxDistanceSquared(old(currentPixelRatio)))
      ensures old(isRunning) && NeedsResize(old(width), old(height), offsetWidth, offsetHeight, old(currentPixelRatio)) ==>
        var w, h := Backing(boxWidth, old(currentPixelRatio)), Backing(boxHeight, old(currentPixelRatio));
        picture.particles == MoveAll(ResetAll(old(particles), d, w, h), currentTime - old(lastTime), w, h)
      ensures old(isRunning) && !NeedsResize(old(width), old(height), offsetWidth, offsetHeight, old(currentPixelRatio)) ==>
        picture.particles == MoveAll(old(particles), currentTime - old(lastTime), old(width), old(height))
      ensures old(isRunning) ==> (var s := Sample(Meter(old(renderTimeSum), old(renderTimeCount)), renderTime);
        Meter(renderTimeSum, renderTimeCount) == s.meter
        && Level() == (if s.downgrade then Governor.Downgrade(old(Level())) else old(Level())))
      ensures old(isRunning) ==> (issued >= old(issued) &&
        scheduled == RemoveAt(old(scheduled), k) + [NextRequest(capFps, currentTime - old(lastTime), issued)])
      ensures old(isRunning) ==>
        var s := Sample(Meter(old(renderTimeSum), old(renderTimeCount)), renderTime);
        var c := if NeedsResize(old(width), old(height), offsetWidth, offsetHeight, old(currentPixelRatio))
          then Canvas(picture.particles, Backing(boxWidth, old(currentPixelRatio)), Backing(boxHeight, old(currentPixelRatio)))
          else Canvas(picture.particles, old(width), old(height));
        Canvas(particles, width, height) == Governed(c, old(Level()), s.downgrade, boxWidth, boxHeight, speed, d2)
      ensures NoBetter(Level(), old(Level()))
    {
      if !isRunning {
        scheduled := RemoveAt(scheduled, k);
        picture := Blank;
        return;
      }
      picture := Step(currentTime, renderTime, offsetWidth, offsetHeight, boxWidth, boxHeight, d, d2);
      // The fired frame leaves the queue; removing it last gives the same queue.
      RemoveAtAppend(old(scheduled), k, NextRequest(capFps, currentTime - old(lastTime), issued));
      scheduled := RemoveAt(scheduled, k);
    }

    /** The body of `render` once it is known to be running. */
    method Step(currentTime: real, renderTime: real, offsetWidth: nat, offsetHeight: nat,
                boxWidth: real, boxHeight: real, d: Draws, d2: Draws)
      returns (picture: Picture)
      requires Valid() && boxWidth >= 0.0 && boxHeight >= 0.0
      modifies this`lastTime, this`particles, this`width, this`height, this`renderTimeSum, this`renderTimeCount,
        this`currentDensity, this`currentPixelRatio, this`scheduled, this`issued, this`animationId
      ensures Valid()
      ensures lastTime == currentTime && picture.Drawn? && |picture.particles| == |old(particles)|
      ensures ConnectionList(picture.lines, picture.particles, MaxDistanceSquared(old(currentPixelRatio)))
      ensures NeedsResize(old(width), old(height), offsetWidth, offsetHeight, old(currentPixelRatio)) ==>
        var w, h := Backing(boxWidth, old(currentPixelRatio)), Backing(boxHeight, old(currentPixelRatio));
        picture.particles == MoveAll(ResetAll(old(particles), d, w, h), currentTime - old(lastTime), w, h)
      ensures !NeedsResize(old(width), old(height), offsetWidth, offsetHeight, old(currentPixelRatio)) ==>
        picture.particles == MoveAll(old(particles), currentTime - old(lastTime), old(width), old(height))
      ensures var s := Sample(Meter(old(renderTimeSum), old(renderTimeCount)), renderTime);
        Meter(renderTimeSum, renderTimeCount) == s.meter
        && Level() == (if s.downgrade then Governor.Downgrade(old(Level())) else old(Level()))
      ensures issued >= old(issued)
      ensures scheduled == old(scheduled) + [NextRequest(capFps, currentTime - old(lastTime), issued)]
      ensures var s := Sample(Meter(old(renderTimeSum), old(renderTimeCount)), renderTime);
        var c := if NeedsResize(old(width), old(height), offsetWidth, offsetHeight, old(currentPixelRatio))
          then Canvas(picture.particles, Backing(boxWidth, old(currentPixelRatio)), Backing(boxHeight, old(currentPixelRatio)))
          else Canvas(picture.particles, old(width), old(height));
        Canvas(particles, width, height) == Governed(c, old(Level()), s.downgrade, boxWidth, boxHeight, speed, d2)
      ensures NoBetter(Level(), old(Level()))
    {
      var deltaTime := currentTime - lastTime;
      lastTime := currentTime;
      picture := Draw(deltaTime, offsetWidth, offsetHeight, boxWidth, boxHeight, d);
      Finish(deltaTime, renderTime, boxWidth, boxHeight, d2);
    }

    /** The end of `render` after drawing: the governor, then the next frame. */
    method Finish(deltaTime: real, renderTime: real, boxWidth: real, boxHeight: real, d: Draws)
      requires Valid() && boxWidth >= 0.0 && boxHeight >= 0.0
      modifies this`particles, this`width, this`height, this`renderTimeSum, this`renderTimeCount,
        this`currentDensity, this`currentPixelRatio, this`scheduled, this`issued, this`animationId
      ensures Valid()
      ensures var s := Sample(Meter(old(renderTimeSum), old(renderTimeCount)), renderTime);
        Meter(renderTimeSum, renderTimeCount) == s.meter
        && Level() == (if s.downgrade then Governor.Downgrade(old(Level())) else old(Level()))
      ensures issued >= old(issued)
      ensures scheduled == old(scheduled) + [NextRequest(capFps, deltaTime, issued)]
      ensures var s := Sample(Meter(old(renderTimeSum), old(renderTimeCount)), renderTime);
        Canvas(particles, width, height)
          == Governed(Canvas(old(particles), old(width), old(height)), old(Level()), s.downgrade, boxWidth, boxHeight, speed, d)
      ensures NoBetter(Level(), old(Level()))
    {
      Govern(renderTime, boxWidth, boxHeight, d);
      Reschedule(deltaTime);
    }

    /**
     * The drawing half of `render`: resize when the layout size no longer matches, move every particle, then
     * draw the particles and every connection shorter than 120 pixels times the ratio.
     */
    method Draw(deltaTime: real, offsetWidth: nat, offsetHeight: nat, boxWidth: real, boxHeight: real, d: Draws)
      returns (picture: Picture)
      requires Valid() && boxWidth >= 0.0 && boxHeight >= 0.0
      modifies this`particles, this`width, this`height
      ensures Valid()
      ensures picture.Drawn? && picture.particles == particles && |particles| == |old(particles)|
      ensures ConnectionList(picture.lines, picture.particles, MaxDistanceSquared(currentPixelRatio))
      ensures NeedsResize(old(width), old(height), offsetWidth, offsetHeight, currentPixelRatio) ==>
        width == Backing(boxWidth, currentPixelRatio) && height == Backing(boxHeight, currentPixelRatio)
        && particles == MoveAll(ResetAll(old(particles), d, width, height), deltaTime, width, height)
      ensures !NeedsResize(old(width), old(height), offsetWidth, offsetHeight, currentPixelRatio) ==>
        width == old(width) && height == old(height)
        && particles == MoveAll(old(particles), deltaTime, width, height)
    {
      if NeedsResize(width, height, offsetWidth, offsetHeight, currentPixelRatio) {
        Resize(boxWidth, boxHeight, d);
      }
      Advance(deltaTime);
      var lines := DrawConnections(particles, currentPixelRatio);
      picture := Drawn(particles, lines);
    }

    /**
     * The governor half of `render`: count the frame's cost and, every 60 frames, downgrade
     * when the average exceeded 25 ms, then restart the window.
     */
    method Govern(renderTime: real, boxWidth: real, boxHeight: real, d: Draws)
      requires Valid() && boxWidth >= 0.0 && boxHeight >= 0.0
      modifies this`renderTimeSum, this`renderTimeCount, this`currentDensity, this`currentPixelRatio,
        this`particles, this`width, this`height
      ensures Valid()
      ensures var s := Sample(Meter(old(renderTimeSum), old(renderTimeCount)), renderTime);
        Meter(renderTimeSum, renderTimeCount) == s.meter
        && (s.downgrade ==> Level() == Governor.Downgrade(old(Level())))
        && (!s.downgrade ==> Level() == old(Level()) && particles == old(particles))
      ensures var s := Sample(Meter(old(renderTimeSum), old(renderTimeCount)), renderTime);
        Canvas(particles, width, height)
          == Governed(Canvas(old(particles), old(width), old(height)), old(Level()), s.downgrade, boxWidth, boxHeight, speed, d)
      ensures NoBetter(Level(), old(Level()))
    {
      var s := Sample(Meter(renderTimeSum, renderTimeCount), renderTime);
      if s.downgrade {
        Downgrade(boxWidth, boxHeight, d);
      }
      renderTimeSum, renderTimeCount := s.meter.renderTimeSum, s.meter.renderTimeCount;
    }

    /** The end of `render`: under the 30 fps cap a timer for the rest of 33 ms, else a frame. */
    method Reschedule(deltaTime: real)
      modifies this`scheduled, this`issued, this`animationId
      ensures issued >= old(issued)
      ensures scheduled == old(scheduled) + [NextRequest(capFps, deltaTime, issued)]
      ensures (capFps && deltaTime < 33.0) ==> issued == old(issued) && animationId == old(animationId)
      ensures !(capFps && deltaTime < 33.0) ==> issued == old(issued) + 1 && animationId == Some(issued)
    {
      if capFps && deltaTime < 33.0 {
        scheduled := scheduled + [CapDelay(33.0 - deltaTime)];
      } else {
        RequestFrame();
      }
    }

    /** The 30 fps cap's timer `scheduled[k]` fires: it requests a frame, running or not. */
    method FireCapDelay(k: nat)
      requires k < |scheduled| && scheduled[k].CapDelay?
      modifies this`scheduled, this`issued, this`animationId
      ensures issued == old(issued) + 1 && animationId == Some(issued)
      ensures scheduled == RemoveAt(old(scheduled), k) + [Frame(issued)]
    {
      scheduled := RemoveAt(scheduled, k);
      RequestFrame();
    }

    /** `start`: nothing when already running or under reduced motion; else request the first frame. */
    method Start(now: real)
      modifies this`isRunning, this`lastTime, this`issued, this`animationId, this`scheduled
      ensures old(isRunning) || reducedMotion ==>
        isRunning == old(isRunning) && lastTime == old(lastTime) && issued == old(issued)
        && animationId == old(animationId) && scheduled == old(scheduled)
      ensures !old(isRunning) && !reducedMotion ==>
        isRunning && lastTime == now && issued == old(issued) + 1 && animationId == Some(issued)
        && scheduled == old(scheduled) + [Frame(issued)]
    {
      if isRunning {
        return;
      }
      if reducedMotion {
        return;
      }
      isRunning := true;
      lastTime := now;
      RequestFrame();
    }

    /** `stop`: not running, the remembered frame cancelled; the particles stay. */
    method Stop()
      modifies this`isRunning, this`animationId, this`scheduled
      ensures !isRunning && animationId == None
      ensures old(animationId).Some? ==> scheduled == CancelFrame(old(scheduled), old(animationId).value)
      ensures old(animationId).None? ==> scheduled == old(scheduled)
    {
      isRunning := false;
      if animationId.Some? {
        scheduled := CancelFrame(scheduled, animationId.value);
        animationId := None;
      }
    }

    /** `destroy`: stop, then drop every particle. */
    method Destroy()
      requires Valid()
      modifies this`isRunning, this`animationId, this`scheduled, this`particles
      ensures Valid()
      ensures !isRunning && animationId == None && particles == []
      ensures old(animationId).Some? ==> scheduled == CancelFrame(old(scheduled), old(animationId).value)
      ensures old(animationId).None? ==> scheduled == old(scheduled)
    {
      Stop();
      particles := [];
    }
  }

  /**
   * Stopping does not cancel the 30 fps cap's timer. A frame that finished early, then
   * `stop` and `start` within 33 ms, leaves two callbacks that will each start a render
   * loop: the restarted frame and the stale timer's.
   */
  method StopStartForksLoop(d: Draws) returns (pending: seq<Pending>)
    ensures |pending| == 2 && pending[0].CapDelay? && pending[1].Frame?
  {
    var o := EarlyFrame(d, 100, 100, 100.0, 100.0, "low", 1.0);
    assert o.animationId.Some? ==> CancelFrame(o.scheduled, o.animationId.value) == o.scheduled;
    o.Stop();
    o.Start(20.0);
    pending := o.scheduled;
  }

  /**
   * A capped overlay of any size and density, started at 0 ms, whose first frame ran at
   * 16 ms: its only pending callback is a 17 ms timer.
   */
  method EarlyFrame(d: Draws, offsetWidth: nat, offsetHeight: nat, boxWidth: real, boxHeight: real,
                    density: string, pixelRatio: real) returns (o: Overlay)
    requires boxWidth >= 0.0 && boxHeight >= 0.0 && pixelRatio > 0.0
    ensures fresh(o) && !o.reducedMotion && o.isRunning
    ensures o.scheduled == [CapDelay(17.0)]
  {
    o := new Overlay(boxWidth, boxHeight, 1.0, density, pixelRatio, false, true, d);
    o.Start(0.0);
    assert o.scheduled == [] + [Frame(o.issued)];
    assert RemoveAt(o.scheduled, 0) == [];
    assert o.isRunning && o.capFps && o.lastTime == 0.0;
    var _ := o.Render(0, 16.0, 1.0, offsetWidth, offsetHeight, boxWidth, boxHeight, d, d);
    assert NextRequest(true, 16.0 - 0.0, o.issued) == CapDelay(17.0);
  }

  /** Under reduced motion `start` never schedules a frame, so nothing is ever drawn. */
  method ReducedMotionNeverStarts(d: Draws) returns (running: bool, pending: nat)
    ensures !running && pending == 0
  {
    var o := new Overlay(100.0, 100.0, 1.0, "medium", 2.0, true, true, d);
    o.Start(0.0);
    o.Start(5.0);
    running, pending := o.isRunning, |o.scheduled|;
  }

  /** A resize keeps the medium density's 80 particles and places them on the new canvas. */
  method ResizeKeepsCount(d: Draws, d2: Draws) returns (before: nat, after: nat)
    ensures before == 80 && after == 80
  {
    var o := new Overlay(300.0, 200.0, 1.0, "medium", 1.0, false, true, d);
    before := |o.particles|;
    o.Resize(640.0, 360.0, d2);
    after := |o.particles|;
  }
}
