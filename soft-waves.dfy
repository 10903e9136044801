/**
 * The soft-wave overlay of assets/js/overlays/soft-waves.js: the closure state of `init`
 * as a class, the waves as values in a sequence the closure reassigns, `Math.random()` as
 * a supply of draws and `Math.sin` as a function parameter.
 */
module SoftWaves {
  import opened Common
  import opened Governor

  /** `Math.PI` as a double. */
  const Pi: real := 3.141592653589793

  /** Draws one wave takes when it is created. */
  const PerWave: nat := 6

  /** One wave layer, as the `Wave` constructor sets it up; `direction` is 1 or -1. */
  datatype Wave = Wave(
    amplitude: real, frequency: real, offset: real, speed: real,
    y: real, alpha: real, direction: int)

  /** What a wave keeps all its life: its frequency, its alpha and a direction of 1 or -1. */
  predicate Shaped(w: Wave)
  {
    && 0.005 <= w.frequency < 0.015
    && 0.15 <= w.alpha < 0.45
    && (w.direction == 1 || w.direction == -1)
  }

  predicate Formed(ws: seq<Wave>)
  {
    forall i :: 0 <= i < |ws| ==> Shaped(ws[i])
  }

  /** The baseline of layer `index`: 20% of the canvas height down, then 25% more per layer. */
  function Row(height: nat, index: nat): real
  {
    if index == 0 then height as real * 0.2 else Row(height, index - 1) + height as real * 0.25
  }

  /** The baseline in closed form, `height * (0.2 + index * 0.25)`. */
  lemma {:induction false} RowClosedForm(height: nat, index: nat)
    ensures Row(height, index) == height as real * (0.2 + index as real * 0.25)
  {
    if index > 0 {
      RowClosedForm(height, index - 1);
    }
  }

  /**
   * Every wave sits on the row of its index for the current canvas, with an amplitude of
   * 20 to 50 pixels times the ratio.
   */
  predicate Layered(ws: seq<Wave>, height: nat, ratio: real)
  {
    forall i :: 0 <= i < |ws| ==>
      ws[i].y == Row(height, i) && 20.0 * ratio <= ws[i].amplitude < 50.0 * ratio
  }

  /** `(Math.random() * 30 + 20) * currentPixelRatio`. */
  function Amplitude(u: Unit, ratio: real): (r: real)
    requires ratio > 0.0
    ensures 20.0 * ratio <= r < 50.0 * ratio
  {
    assert (u * 30.0 + 20.0) * ratio == u * (30.0 * ratio) + 20.0 * ratio;
    ScaledDraw(u, 30.0 * ratio);
    (u * 30.0 + 20.0) * ratio
  }

  /** `speed * (0.5 + Math.random() * 0.5)`: between half the setting and the setting. */
  function Pace(u: Unit, speed: real): (r: real)
    ensures speed >= 0.0 ==> speed * 0.5 <= r <= speed
    ensures speed > 0.0 ==> r > 0.0
  {
    assert speed * (0.5 + u * 0.5) == speed * 0.5 + u * speed * 0.5;
    if speed >= 0.0 then ScaledDraw(u, speed); speed * (0.5 + u * 0.5) else speed * (0.5 + u * 0.5)
  }

  /**
   * The wave `new Wave(index)` makes from the six draws at `at` onward: amplitude,
   * frequency, offset, speed, alpha and direction, in that order.
   */
  function MakeWave(d: Draws, at: nat, index: nat, height: nat, ratio: real, speed: real): (w: Wave)
    requires ratio > 0.0
    ensures Shaped(w) && w.y == Row(height, index) && 20.0 * ratio <= w.amplitude < 50.0 * ratio
    ensures 0.0 <= w.offset < 2.0 * Pi
    ensures speed > 0.0 ==> w.speed > 0.0
    ensures w.direction == (if d(at + 5) > 0.5 then 1 else -1)
  {
    Wave(Amplitude(d(at), ratio), Scaled(d(at + 1), 0.01) + 0.005, Scaled(d(at + 2), Pi * 2.0),
      Pace(d(at + 3), speed), Row(height, index), Scaled(d(at + 4), 0.3) + 0.15,
      if d(at + 5) > 0.5 then 1 else -1)
  }

  /** The `n` waves `initWaves` creates; wave `i` uses draws `6i` to `6i + 5`. */
  function Spawn(n: nat, d: Draws, height: nat, ratio: real, speed: real): (r: seq<Wave>)
    requires ratio > 0.0
    ensures |r| == n
  {
    if n == 0 then []
    else Spawn(n - 1, d, height, ratio, speed) + [MakeWave(d, PerWave * (n - 1), n - 1, height, ratio, speed)]
  }

  /** Wave `i` of a spawn is the wave drawn from its own six draws for layer `i`. */
  lemma {:induction false} SpawnAt(n: nat, d: Draws, height: nat, ratio: real, speed: real)
    requires ratio > 0.0
    ensures forall i :: 0 <= i < n ==> Spawn(n, d, height, ratio, speed)[i] == MakeWave(d, PerWave * i, i, height, ratio, speed)
  {
    if n > 0 {
      SpawnAt(n - 1, d, height, ratio, speed);
    }
  }

  /** Every spawned wave is well shaped and on its own row. */
  lemma SpawnFormed(n: nat, d: Draws, height: nat, ratio: real, speed: real)
    requires ratio > 0.0
    ensures Formed(Spawn(n, d, height, ratio, speed))
    ensures Layered(Spawn(n, d, height, ratio, speed), height, ratio)
  {
    SpawnAt(n, d, height, ratio, speed);
  }

  /** What the `forEach` of `resize` does to wave `index`: a new row and a new amplitude. */
  function Relayer(w: Wave, u: Unit, index: nat, height: nat, ratio: real): (r: Wave)
    requires ratio > 0.0
    ensures r.y == Row(height, index) && 20.0 * ratio <= r.amplitude < 50.0 * ratio
    ensures r.(y := w.y, amplitude := w.amplitude) == w
  {
    w.(y := Row(height, index), amplitude := Amplitude(u, ratio))
  }

  /** Every wave relaid in turn; wave `i` uses draw `i`. */
  function RelayerAll(ws: seq<Wave>, d: Draws, height: nat, ratio: real): (r: seq<Wave>)
    requires ratio > 0.0
    ensures |r| == |ws|
  {
    if ws == [] then []
    else RelayerAll(ws[..|ws| - 1], d, height, ratio) + [Relayer(ws[|ws| - 1], d(|ws| - 1), |ws| - 1, height, ratio)]
  }

  /** Relaying all waves relays each on its own. */
  lemma {:induction false} RelayerAllEach(ws: seq<Wave>, d: Draws, height: nat, ratio: real)
    requires ratio > 0.0
    ensures forall i :: 0 <= i < |ws| ==> RelayerAll(ws, d, height, ratio)[i] == Relayer(ws[i], d(i), i, height, ratio)
  {
    if ws != [] {
      RelayerAllEach(ws[..|ws| - 1], d, height, ratio);
    }
  }

  /** After a resize the waves sit on the rows of the new canvas and keep their shape. */
  lemma RelayerAllLayered(ws: seq<Wave>, d: Draws, height: nat, ratio: real)
    requires ratio > 0.0 && Formed(ws)
    ensures Layered(RelayerAll(ws, d, height, ratio), height, ratio)
    ensures Formed(RelayerAll(ws, d, height, ratio))
  {
    RelayerAllEach(ws, d, height, ratio);
  }

  /** `update(deltaTime)`: shift the phase by the speed per second in the wave's direction. */
  function Update(w: Wave, deltaTime: real): (r: Wave)
    ensures r.(offset := w.offset) == w
  {
    w.(offset := w.offset + w.speed * w.direction as real * deltaTime * 0.001)
  }

  /** Two updates are one update by the summed time, and no time changes nothing. */
  lemma UpdateAdditive(w: Wave, a: real, b: real)
    ensures Update(Update(w, a), b) == Update(w, a + b)
    ensures Update(w, 0.0) == w
  {
    var k := w.speed * w.direction as real;
    assert k * a * 0.001 + k * b * 0.001 == k * (a + b) * 0.001;
  }

  /** With a positive speed and elapsed time, a wave scrolls the way its direction says. */
  lemma UpdateDrifts(w: Wave, deltaTime: real)
    requires w.speed > 0.0 && deltaTime > 0.0 && (w.direction == 1 || w.direction == -1)
    ensures w.direction == 1 ==> Update(w, deltaTime).offset > w.offset
    ensures w.direction == -1 ==> Update(w, deltaTime).offset < w.offset
  {
    assert w.speed * deltaTime > 0.0;
    assert w.speed * w.direction as real * deltaTime * 0.001 == w.direction as real * (w.speed * deltaTime) * 0.001;
  }

  /** Every wave updated in turn. */
  function UpdateAll(ws: seq<Wave>, deltaTime: real): (r: seq<Wave>)
    ensures |r| == |ws|
  {
    if ws == [] then [] else UpdateAll(ws[..|ws| - 1], deltaTime) + [Update(ws[|ws| - 1], deltaTime)]
  }

  /** Updating all waves updates each one on its own. */
  lemma {:induction false} UpdateAllEach(ws: seq<Wave>, deltaTime: real)
    ensures forall i :: 0 <= i < |ws| ==> UpdateAll(ws, deltaTime)[i] == Update(ws[i], deltaTime)
  {
    if ws != [] {
      UpdateAllEach(ws[..|ws| - 1], deltaTime);
    }
  }

  // ---------------------------------------------------------------- drawing

  /** The sine `draw` takes at `x`: of the phase `x * frequency + offset`. */
  function Swing(w: Wave, x: nat, sine: real -> real): real
  {
    sine(x as real * w.frequency + w.offset)
  }

  /** The height of the wave's line at `x` in `draw`: its row moved by the sine times the amplitude. */
  function Crest(w: Wave, x: nat, sine: real -> real): real
  {
    w.y + Swing(w, x, sine) * w.amplitude
  }

  lemma WithinAmplitude(s: real, amplitude: real, y: real)
    requires amplitude >= 0.0 && -1.0 <= s <= 1.0
    ensures y - amplitude <= y + s * amplitude <= y + amplitude
  {
    assert (1.0 - s) * amplitude >= 0.0;
    assert (1.0 + s) * amplitude >= 0.0;
  }

  /** Where the sine stays in [-1, 1], the line stays within one amplitude of the row. */
  lemma CrestBounds(w: Wave, x: nat, sine: real -> real)
    requires w.amplitude >= 0.0
    ensures -1.0 <= Swing(w, x, sine) <= 1.0 ==> w.y - w.amplitude <= Crest(w, x, sine) <= w.y + w.amplitude
  {
    var s := Swing(w, x, sine);
    if -1.0 <= s <= 1.0 {
      WithinAmplitude(s, w.amplitude, w.y);
      assert Crest(w, x, sine) == w.y + s * w.amplitude;
    }
  }

  /** The number of points the line of a wave has on a canvas `width` wide: `x = 0, 2, …`. */
  function PointCount(width: nat): nat
  {
    width / 2 + 1
  }

  /** The loop of `draw` along the canvas: the line's height at every second pixel up to `width`. */
  method Trace(w: Wave, width: nat, sine: real -> real) returns (points: seq<real>)
    ensures |points| == PointCount(width)
    ensures forall j :: 0 <= j < |points| ==> 2 * j <= width && points[j] == Crest(w, 2 * j, sine)
  {
    points := [];
    var x := 0;
    while x <= width
      invariant x == 2 * |points| && x <= width + 2
      invariant forall j :: 0 <= j < |points| ==> 2 * j <= width && points[j] == Crest(w, 2 * j, sine)
      decreases width + 2 - x
    {
      points := points + [Crest(w, x, sine)];
      x := x + 2;
    }
  }

  /** `traces[i]` holds the line of wave `ws[i]` across a canvas `width` wide. */
  predicate TracedAs(traces: seq<seq<real>>, ws: seq<Wave>, width: nat, sine: real -> real)
  {
    && |traces| == |ws|
    && forall i :: 0 <= i < |ws| ==>
         && |traces[i]| == PointCount(width)
         && forall j :: 0 <= j < PointCount(width) ==> traces[i][j] == Crest(ws[i], 2 * j, sine)
  }

  /** The loop of `initWaves`: `count` waves, one per layer. */
  method MakeWaves(count: nat, d: Draws, height: nat, ratio: real, speed: real) returns (made: seq<Wave>)
    requires ratio > 0.0
    ensures made == Spawn(count, d, height, ratio, speed)
  {
    made := [];
    var i := 0;
    while i < count
      invariant 0 <= i <= count
      invariant made == Spawn(i, d, height, ratio, speed)
    {
      made := made + [MakeWave(d, PerWave * i, i, height, ratio, speed)];
      i := i + 1;
    }
  }

  /** The `forEach` of `render`: update each wave, then trace its line. */
  method UpdateAndTrace(ws: seq<Wave>, deltaTime: real, width: nat, sine: real -> real)
    returns (moved: seq<Wave>, traces: seq<seq<real>>)
    ensures moved == UpdateAll(ws, deltaTime)
    ensures forall i :: 0 <= i < |ws| ==> moved[i] == Update(ws[i], deltaTime)
    ensures TracedAs(traces, moved, width, sine)
  {
    moved, traces := [], [];
    var i := 0;
    while i < |ws|
      invariant 0 <= i <= |ws|
      invariant |moved| == i && |traces| == i
      invariant forall j :: 0 <= j < i ==> moved[j] == Update(ws[j], deltaTime)
      invariant forall j :: 0 <= j < i ==> (|traces[j]| == PointCount(width)
        && (forall v :: 0 <= v < PointCount(width) ==> traces[j][v] == Crest(moved[j], 2 * v, sine)))
    {
      var w := Update(ws[i], deltaTime);
      var points := Trace(w, width, sine);
      moved := moved + [w];
      traces := traces + [points];
      i := i + 1;
    }
    UpdateAllEach(ws, deltaTime);
  }

  /** The waves with the canvas backing size they are laid out on. */
  datatype Canvas = Canvas(waves: seq<Wave>, width: nat, height: nat)

  /**
   * The resize check at the top of `render`: when the backing size no longer matches the
   * layout size times the ratio, resize the canvas from the bounding box and relay every
   * wave; otherwise nothing.
   */
  function Fit(c: Canvas, offsetWidth: nat, offsetHeight: nat, boxWidth: real, boxHeight: real, ratio: real, d: Draws)
    : (r: Canvas)
    requires boxWidth >= 0.0 && boxHeight >= 0.0 && ratio > 0.0
    ensures |r.waves| == |c.waves|
    ensures !NeedsResize(c.width, c.height, offsetWidth, offsetHeight, ratio) ==> r == c
    ensures NeedsResize(c.width, c.height, offsetWidth, offsetHeight, ratio) ==>
      r.width == Backing(boxWidth, ratio) && r.height == Backing(boxHeight, ratio)
  {
    if NeedsResize(c.width, c.height, offsetWidth, offsetHeight, ratio) then
      var w := Backing(boxWidth, ratio);
      var h := Backing(boxHeight, ratio);
      Canvas(RelayerAll(c.waves, d, h, ratio), w, h)
    else c
  }

  /**
   * The waves and backing size `downgrade` leaves from quality `q`: the lower density's
   * count of new waves on the same canvas, every wave relaid on a canvas sized at ratio 1,
   * or nothing changed at the end of the ladder.
   */
  function AfterDowngrade(c: Canvas, q: Quality, boxWidth: real, boxHeight: real, speed: real, d: Draws): (r: Canvas)
    requires boxWidth >= 0.0 && boxHeight >= 0.0 && q.pixelRatio > 0.0
    ensures DowngradeAction(q) == Regenerate ==>
      |r.waves| == EntityCount(WaveCounts, Governor.Downgrade(q).density) && r.width == c.width && r.height == c.height
    ensures DowngradeAction(q) != Regenerate ==> |r.waves| == |c.waves|
  {
    match DowngradeAction(q)
    case Regenerate =>
      Canvas(Spawn(EntityCount(WaveCounts, Governor.Downgrade(q).density), d, c.height, q.pixelRatio, speed), c.width, c.height)
    case Rescale =>
      var w, h := Backing(boxWidth, 1.0), Backing(boxHeight, 1.0);
      Canvas(RelayerAll(c.waves, d, h, 1.0), w, h)
    case Unchanged => c
  }

  /** The waves and backing size the governor leaves: those of a downgrade when one is due, else `c`. */
  function Governed(c: Canvas, q: Quality, downgrade: bool, boxWidth: real, boxHeight: real, speed: real, d: Draws)
    : Canvas
    requires boxWidth >= 0.0 && boxHeight >= 0.0 && q.pixelRatio > 0.0
  {
    if downgrade then AfterDowngrade(c, q, boxWidth, boxHeight, speed, d) else c
  }

  /** What one frame puts on the canvas: nothing, or each wave with the points of its line. */
  datatype Picture = Blank | Drawn(waves: seq<Wave>, traces: seq<seq<real>>)

  /**
   * The frame `render` draws from the canvas `before`: the canvas fitted to the element,
   * every wave moved by `deltaTime`, and each traced across the fitted width.
   */
  predicate FrameOf(picture: Picture, before: Canvas, offsetWidth: nat, offsetHeight: nat, boxWidth: real,
                    boxHeight: real, ratio: real, d: Draws, deltaTime: real, sine: real -> real)
    requires boxWidth >= 0.0 && boxHeight >= 0.0 && ratio > 0.0
  {
    var c := Fit(before, offsetWidth, offsetHeight, boxWidth, boxHeight, ratio, d);
    picture.Drawn? && picture.waves == UpdateAll(c.waves, deltaTime) && TracedAs(picture.traces, picture.waves, c.width, sine)
  }

  /** The closure of `init`: the overlay's state between frames. */
  class Overlay {
    const speed: real
    const reducedMotion: bool
    const capFps: bool
    /** `Math.sin`. */
    const sine: real -> real

    var waves: seq<Wave>
    var animationId: Option<nat>
    var isRunning: bool
    var lastTime: real
    var renderTimeSum: real
    var renderTimeCount: nat
    var currentDensity: string
    var currentPixelRatio: real
    /** The canvas backing size, `canvas.width` and `canvas.height`. */
    var width: nat
    var height: nat
    /** Callbacks queued with the browser, and how many frame ids it has handed out. */
    var scheduled: seq<Pending>
    var issued: nat

    /** The meter is inside its window and the pixel ratio is positive. */
    ghost predicate Metered()
      reads this`renderTimeCount, this`currentPixelRatio
    {
      renderTimeCount < Window && currentPixelRatio > 0.0
    }

    /** As many waves as the density asks, or none, each well shaped. */
    ghost predicate Counted()
      reads this`waves, this`currentDensity
    {
      && (waves == [] || |waves| == EntityCount(WaveCounts, currentDensity))
      && Formed(waves)
    }

    /** Metered and counted, and every wave on its row of the current canvas. */
    ghost predicate Valid()
      reads this`renderTimeCount, this`currentPixelRatio, this`waves, this`currentDensity, this`height
    {
      && Metered()
      && Counted()
      && Layered(waves, height, currentPixelRatio)
    }

    function Level(): Quality
      reads this`currentDensity, this`currentPixelRatio
    {
      Quality(currentDensity, currentPixelRatio)
    }

    /** `init(canvas, settings, env)`: size the canvas, then create the waves. */
    constructor (boxWidth: real, boxHeight: real, speed: real, density: string,
                 pixelRatio: real, reducedMotion: bool, capFps: bool, sine: real -> real, d: Draws)
      requires boxWidth >= 0.0 && boxHeight >= 0.0 && pixelRatio > 0.0
      ensures Valid()
      ensures this.speed == speed && this.reducedMotion == reducedMotion && this.capFps == capFps
      ensures this.sine == sine
      ensures !isRunning && animationId == None && scheduled == [] && issued == 0
      ensures renderTimeSum == 0.0 && renderTimeCount == 0
      ensures currentDensity == density && currentPixelRatio == pixelRatio
      ensures width == Backing(boxWidth, pixelRatio) && height == Backing(boxHeight, pixelRatio)
      ensures waves == Spawn(EntityCount(WaveCounts, density), d, height, pixelRatio, speed)
    {
      this.speed, this.reducedMotion, this.capFps, this.sine := speed, reducedMotion, capFps, sine;
      animationId, isRunning, lastTime := None, false, 0.0;
      renderTimeSum, renderTimeCount := 0.0, 0;
      currentDensity, currentPixelRatio := density, pixelRatio;
      scheduled, issued := [], 0;
      // `resize` runs before any wave exists, so all it does is size the canvas.
      var w, h := Backing(boxWidth, pixelRatio), Backing(boxHeight, pixelRatio);
      width, height := w, h;
      var count := EntityCount(WaveCounts, density);
      var made := MakeWaves(count, d, h, pixelRatio, speed);
      SpawnFormed(count, d, h, pixelRatio, speed);
      waves := made;
    }

    /** `initWaves`: replace the waves with new ones, as many as the current density asks. */
    method InitWaves(d: Draws)
      requires Metered()
      modifies this`waves
      ensures Valid()
      ensures waves == Spawn(EntityCount(WaveCounts, currentDensity), d, height, currentPixelRatio, speed)
    {
      waves := MakeWaves(EntityCount(WaveCounts, currentDensity), d, height, currentPixelRatio, speed);
      SpawnFormed(EntityCount(WaveCounts, currentDensity), d, height, currentPixelRatio, speed);
    }

    /** `resize`: size the canvas from the element's box, then put every wave on its new row. */
    method Resize(boxWidth: real, boxHeight: real, d: Draws)
      requires Metered() && Counted() && boxWidth >= 0.0 && boxHeight >= 0.0
      modifies this`width, this`height, this`waves
      ensures Valid()
      ensures width == Backing(boxWidth, currentPixelRatio) && height == Backing(boxHeight, currentPixelRatio)
      ensures waves == RelayerAll(old(waves), d, height, currentPixelRatio)
    {
      width := Backing(boxWidth, currentPixelRatio);
      height := Backing(boxHeight, currentPixelRatio);
      var moved: seq<Wave> := [];
      var i := 0;
      while i < |waves|
        invariant 0 <= i <= |waves|
        invariant moved == RelayerAll(waves[..i], d, height, currentPixelRatio)
      {
        assert waves[..i + 1][..i] == waves[..i];
        moved := moved + [Relayer(waves[i], d(i), i, height, currentPixelRatio)];
        i := i + 1;
      }
      assert waves[..i] == waves;
      RelayerAllLayered(waves, d, height, currentPixelRatio);
      waves := moved;
    }

    /** `downgrade`: one step down the ladder, regenerating or resizing as it goes. */
    method Downgrade(boxWidth: real, boxHeight: real, d: Draws)
      requires Valid() && boxWidth >= 0.0 && boxHeight >= 0.0
      modifies this`currentDensity, this`currentPixelRatio, this`waves, this`width, this`height
      ensures Valid()
      ensures Level() == Governor.Downgrade(old(Level()))
      ensures DowngradeAction(old(Level())) == Regenerate ==>
        waves == Spawn(EntityCount(WaveCounts, currentDensity), d, height, currentPixelRatio, speed)
        && width == old(width) && height == old(height)
      ensures DowngradeAction(old(Level())) == Rescale ==>
        waves == RelayerAll(old(waves), d, height, 1.0)
        && width == Backing(boxWidth, 1.0) && height == Backing(boxHeight, 1.0)
      ensures DowngradeAction(old(Level())) == Unchanged ==>
        waves == old(waves) && width == old(width) && height == old(height)
      ensures Canvas(waves, width, height)
        == AfterDowngrade(Canvas(old(waves), old(width), old(height)), old(Level()), boxWidth, boxHeight, speed, d)
    {
      if currentDensity == "high" {
        currentDensity := "medium";
        InitWaves(d);
      } else if currentDensity == "medium" {
        currentDensity := "low";
        InitWaves(d);
      } else if currentPixelRatio > 1.0 {
        currentPixelRatio := 1.0;
        Resize(boxWidth, boxHeight, d);
      }
    }

    /** `requestAnimationFrame(render)`: a new frame id, remembered in `animationId`. */
    method RequestFrame()
      modifies this`issued, this`animationId, this`scheduled
      ensures issued == old(issued) + 1 && animationId == Some(issued)
      ensures scheduled == old(scheduled) + [Frame(issued)]
    {
      issued := issued + 1;
      animationId := Some(issued);
      scheduled := scheduled + [Frame(issued)];
    }

    /**
     * `render(currentTime)`, run when the frame `scheduled[k]` fires: nothing unless running;
     * otherwise draw, feed the governor, and queue the next frame. `renderTime` is what the
     * frame cost; `offsetWidth` and `offsetHeight` are the element's
     * layout size, `boxWidth` and `boxHeight` its bounding box; `d` feeds a resize and
     * `d2` a downgrade.
     */
    method Render(k: nat, currentTime: real, renderTime: real, offsetWidth: nat, offsetHeight: nat,
                  boxWidth: real, boxHeight: real, d: Draws, d2: Draws)
      returns (picture: Picture)
      requires Valid() && k < |scheduled| && scheduled[k].Frame?
      requires boxWidth >= 0.0 && boxHeight >= 0.0
      modifies this
      ensures Valid()
      ensures !old(isRunning) ==> (picture == Blank && scheduled == RemoveAt(old(scheduled), k)
        && waves == old(waves) && width == old(width) && height == old(height)
        && Level() == old(Level()) && renderTimeCount == old(renderTimeCount)
        && !isRunning && issued == old(issued) && animationId == old(animationId))
      ensures old(isRunning) ==> (isRunning && lastTime == currentTime && picture.Drawn?
        && |picture.waves| == |old(waves)|)
      ensures old(isRunning) ==> FrameOf(picture, Canvas(old(waves), old(width), old(height)), offsetWidth, offsetHeight,
        boxWidth, boxHeight, old(currentPixelRatio), d, currentTime - old(lastTime), sine)
      ensures old(isRunning) ==> (var s := Sample(Meter(old(renderTimeSum), old(renderTimeCount)), renderTime);
        Meter(renderTimeSum, renderTimeCount) == s.meter
        && Level() == (if s.downgrade then Governor.Downgrade(old(Level())) else old(Level())))
      ensures old(isRunning) ==> (issued >= old(issued) &&
        scheduled == RemoveAt(old(scheduled), k) + [NextRequest(capFps, currentTime - old(lastTime), issued)])
      ensures old(isRunning) ==>
        var c := Fit(Canvas(old(waves), old(width), old(height)), offsetWidth, offsetHeight, boxWidth, boxHeight,
          old(currentPixelRatio), d);
        var s := Sample(Meter(old(renderTimeSum), old(renderTimeCount)), renderTime);
        Canvas(waves, width, height)
          == Governed(Canvas(picture.waves, c.width, c.height), old(Level()), s.downgrade, boxWidth, boxHeight, speed, d2)
      ensures NoBetter(Level(), old(Level()))
    {
      if !isRunning {
        scheduled := RemoveAt(scheduled, k);
        picture := Blank;
        return;
      }
      picture := RunFrame(currentTime, renderTime, offsetWidth, offsetHeight, boxWidth, boxHeight, d, d2);
      // The fired frame leaves the queue; removing it last gives the same queue.
      RemoveAtAppend(old(scheduled), k, NextRequest(capFps, currentTime - old(lastTime), issued));
      scheduled := RemoveAt(scheduled, k);
    }

    /** The body of `render` once it is known to be running: draw, then govern and queue the next callback. */
    method RunFrame(currentTime: real, renderTime: real, offsetWidth: nat, offsetHeight: nat,
                    boxWidth: real, boxHeight: real, d: Draws, d2: Draws)
      returns (picture: Picture)
      requires Valid() && boxWidth >= 0.0 && boxHeight >= 0.0
      modifies this`lastTime, this`waves, this`width, this`height, this`renderTimeSum, this`renderTimeCount,
        this`currentDensity, this`currentPixelRatio, this`scheduled, this`issued, this`animationId
      ensures Valid()
      ensures lastTime == currentTime && picture.Drawn? && |picture.waves| == |old(waves)|
      ensures FrameOf(picture, Canvas(old(waves), old(width), old(height)), offsetWidth, offsetHeight,
        boxWidth, boxHeight, old(currentPixelRatio), d, currentTime - old(lastTime), sine)
      ensures var s := Sample(Meter(old(renderTimeSum), old(renderTimeCount)), renderTime);
        Meter(renderTimeSum, renderTimeCount) == s.meter
        && Level() == (if s.downgrade then Governor.Downgrade(old(Level())) else old(Level()))
      ensures issued >= old(issued)
      ensures scheduled == old(scheduled) + [NextRequest(capFps, currentTime - old(lastTime), issued)]
      ensures var c := Fit(Canvas(old(waves), old(width), old(height)), offsetWidth, offsetHeight, boxWidth, boxHeight,
          old(currentPixelRatio), d);
        var s := Sample(Meter(old(renderTimeSum), old(renderTimeCount)), renderTime);
        Canvas(waves, width, height)
          == Governed(Canvas(picture.waves, c.width, c.height), old(Level()), s.downgrade, boxWidth, boxHeight, speed, d2)
      ensures NoBetter(Level(), old(Level()))
    {
      var deltaTime := currentTime - lastTime;
      picture := Step(currentTime, offsetWidth, offsetHeight, boxWidth, boxHeight, d);
      Finish(deltaTime, renderTime, boxWidth, boxHeight, d2);
    }

    /** The start of `render` once it is known to be running: take the time, then draw. */
    method Step(currentTime: real, offsetWidth: nat, offsetHeight: nat, boxWidth: real, boxHeight: real, d: Draws)
      returns (picture: Picture)
      requires Valid() && boxWidth >= 0.0 && boxHeight >= 0.0
      modifies this`lastTime, this`waves, this`width, this`height
      ensures Valid()
      ensures lastTime == currentTime && picture.Drawn? && |picture.waves| == |old(waves)|
      ensures FrameOf(picture, Canvas(old(waves), old(width), old(height)), offsetWidth, offsetHeight,
        boxWidth, boxHeight, currentPixelRatio, d, currentTime - old(lastTime), sine)
      ensures var c := Fit(Canvas(old(waves), old(width), old(height)), offsetWidth, offsetHeight, boxWidth, boxHeight,
          currentPixelRatio, d);
        waves == picture.waves && width == c.width && height == c.height
    {
      var deltaTime := currentTime - lastTime;
      lastTime := currentTime;
      picture := Draw(deltaTime, offsetWidth, offsetHeight, boxWidth, boxHeight, d);
    }

    /** The end of `render` after drawing: the governor, then the next frame. */
    method Finish(deltaTime: real, renderTime: real, boxWidth: real, boxHeight: real, d: Draws)
      requires Valid() && boxWidth >= 0.0 && boxHeight >= 0.0
      modifies this`waves, this`width, this`height, this`renderTimeSum, this`renderTimeCount,
        this`currentDensity, this`currentPixelRatio, this`scheduled, this`issued, this`animationId
      ensures Valid()
      ensures var s := Sample(Meter(old(renderTimeSum), old(renderTimeCount)), renderTime);
        Meter(renderTimeSum, renderTimeCount) == s.meter
        && Level() == (if s.downgrade then Governor.Downgrade(old(Level())) else old(Level()))
      ensures issued >= old(issued)
      ensures scheduled == old(scheduled) + [NextRequest(capFps, deltaTime, issued)]
      ensures var s := Sample(Meter(old(renderTimeSum), old(renderTimeCount)), renderTime);
        Canvas(waves, width, height)
          == Governed(Canvas(old(waves), old(width), old(height)), old(Level()), s.downgrade, boxWidth, boxHeight, speed, d)
      ensures NoBetter(Level(), old(Level()))
    {
      Govern(renderTime, boxWidth, boxHeight, d);
      Reschedule(deltaTime);
    }

    /**
     * The drawing half of `render`: resize when the layout size no longer matches, then update every wave
     * and trace its line across the canvas.
     */
    method Draw(deltaTime: real, offsetWidth: nat, offsetHeight: nat, boxWidth: real, boxHeight: real, d: Draws)
      returns (picture: Picture)
      requires Valid() && boxWidth >= 0.0 && boxHeight >= 0.0
      modifies this`waves, this`width, this`height
      ensures Valid()
      ensures picture.Drawn? && picture.waves == waves && |waves| == |old(waves)|
      ensures FrameOf(picture, Canvas(old(waves), old(width), old(height)), offsetWidth, offsetHeight,
        boxWidth, boxHeight, currentPixelRatio, d, deltaTime, sine)
      ensures var c := Fit(Canvas(old(waves), old(width), old(height)), offsetWidth, offsetHeight, boxWidth, boxHeight, currentPixelRatio, d);
        width == c.width && height == c.height && waves == UpdateAll(c.waves, deltaTime)
    {
      FitCanvas(offsetWidth, offsetHeight, boxWidth, boxHeight, d);
      var moved, traces := UpdateAndTrace(waves, deltaTime, width, sine);
      UpdateAllEach(waves, deltaTime);
      waves := moved;
      picture := Drawn(waves, traces);
    }

    /** The resize check at the top of `render`. */
    method FitCanvas(offsetWidth: nat, offsetHeight: nat, boxWidth: real, boxHeight: real, d: Draws)
      requires Valid() && boxWidth >= 0.0 && boxHeight >= 0.0
      modifies this`waves, this`width, this`height
      ensures Valid()
      ensures Canvas(waves, width, height)
        == Fit(Canvas(old(waves), old(width), old(height)), offsetWidth, offsetHeight, boxWidth, boxHeight, currentPixelRatio, d)
    {
      if NeedsResize(width, height, offsetWidth, offsetHeight, currentPixelRatio) {
        Resize(boxWidth, boxHeight, d);
      }
    }

    /**
     * The governor half of `render`: count the frame's cost and, every 60 frames, downgrade
     * when the average exceeded 25 ms, then restart the window.
     */
    method Govern(renderTime: real, boxWidth: real, boxHeight: real, d: Draws)
      requires Valid() && boxWidth >= 0.0 && boxHeight >= 0.0
      modifies this`renderTimeSum, this`renderTimeCount, this`currentDensity, this`currentPixelRatio,
        this`waves, this`width, this`height
      ensures Valid()
      ensures var s := Sample(Meter(old(renderTimeSum), old(renderTimeCount)), renderTime);
        Meter(renderTimeSum, renderTimeCount) == s.meter
        && (s.downgrade ==> Level() == Governor.Downgrade(old(Level())))
        && (!s.downgrade ==> Level() == old(Level()) && waves == old(waves))
      ensures var s := Sample(Meter(old(renderTimeSum), old(renderTimeCount)), renderTime);
        Canvas(waves, width, height)
          == Governed(Canvas(old(waves), old(width), old(height)), old(Level()), s.downgrade, boxWidth, boxHeight, speed, d)
      ensures NoBetter(Level(), old(Level()))
    {
      var s := Sample(Meter(renderTimeSum, renderTimeCount), renderTime);
      if s.downgrade {
        Downgrade(boxWidth, boxHeight, d);
      }
      renderTimeSum, renderTimeCount := s.meter.renderTimeSum, s.meter.renderTimeCount;
    }

    /** The end of `render`: under the 30 fps cap a timer for the rest of 33 ms, else a frame. */
    method Reschedule(deltaTime: real)
      modifies this`scheduled, this`issued, this`animationId
      ensures issued >= old(issued)
      ensures scheduled == old(scheduled) + [NextRequest(capFps, deltaTime, issued)]
      ensures (capFps && deltaTime < 33.0) ==> issued == old(issued) && animationId == old(animationId)
      ensures !(capFps && deltaTime < 33.0) ==> issued == old(issued) + 1 && animationId == Some(issued)
    {
      if capFps && deltaTime < 33.0 {
        scheduled := scheduled + [CapDelay(33.0 - deltaTime)];
      } else {
        RequestFrame();
      }
    }

    /** The 30 fps cap's timer `scheduled[k]` fires: it requests a frame, running or not. */
    method FireCapDelay(k: nat)
      requires k < |scheduled| && scheduled[k].CapDelay?
      modifies this`scheduled, this`issued, this`animationId
      ensures issued == old(issued) + 1 && animationId == Some(issued)
      ensures scheduled == RemoveAt(old(scheduled), k) + [Frame(issued)]
    {
      scheduled := RemoveAt(scheduled, k);
      RequestFrame();
    }

    /** `start`: nothing when already running or under reduced motion; else request the first frame. */
    method Start(now: real)
      modifies this`isRunning, this`lastTime, this`issued, this`animationId, this`scheduled
      ensures old(isRunning) || reducedMotion ==>
        isRunning == old(isRunning) && lastTime == old(lastTime) && issued == old(issued)
        && animationId == old(animationId) && scheduled == old(scheduled)
      ensures !old(isRunning) && !reducedMotion ==>
        isRunning && lastTime == now && issued == old(issued) + 1 && animationId == Some(issued)
        && scheduled == old(scheduled) + [Frame(issued)]
    {
      if isRunning {
        return;
      }
      if reducedMotion {
        return;
      }
      isRunning := true;
      lastTime := now;
      RequestFrame();
    }

    /** `stop`: not running, the remembered frame cancelled, the canvas cleared; the waves stay. */
    method Stop()
      modifies this`isRunning, this`animationId, this`scheduled
      ensures !isRunning && animationId == None
      ensures old(animationId).Some? ==> scheduled == CancelFrame(old(scheduled), old(animationId).value)
      ensures old(animationId).None? ==> scheduled == old(scheduled)
    {
      isRunning := false;
      if animationId.Some? {
        scheduled := CancelFrame(scheduled, animationId.value);
        animationId := None;
      }
    }

    /** `destroy`: stop, then drop every wave. */
    method Destroy()
      requires Valid()
      modifies this`isRunning, this`animationId, this`scheduled, this`waves
      ensures Valid()
      ensures !isRunning && animationId == None && waves == []
      ensures old(animationId).Some? ==> scheduled == CancelFrame(old(scheduled), old(animationId).value)
      ensures old(animationId).None? ==> scheduled == old(scheduled)
    {
      Stop();
      waves := [];
    }
  }

  /**
   * A high-density overlay whose canvas is 400 pixels high lays its 4 waves on rows 80, 180,
   * 280 and 380; a resize to a 200-pixel-high canvas moves them to 40, 90, 140 and 190.
   */
  method ResizeMovesRows(boxWidth: real, boxHeight: real, newHeight: real, pixelRatio: real,
                         sine: real -> real, d: Draws) returns (rows: seq<real>, after: seq<real>)
    requires boxWidth >= 0.0 && boxHeight >= 0.0 && newHeight >= 0.0 && pixelRatio > 0.0
    requires Backing(boxHeight, pixelRatio) == 400 && Backing(newHeight, pixelRatio) == 200
    ensures rows == [80.0, 180.0, 280.0, 380.0]
    ensures after == [40.0, 90.0, 140.0, 190.0]
  {
    var o := new Overlay(boxWidth, boxHeight, 1.0, "high", pixelRatio, false, true, sine, d);
    rows := [o.waves[0].y, o.waves[1].y, o.waves[2].y, o.waves[3].y];
    o.Resize(boxWidth, newHeight, d);
    after := [o.waves[0].y, o.waves[1].y, o.waves[2].y, o.waves[3].y];
  }
}
