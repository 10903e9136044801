/**
 * What the three canvas overlays (assets/js/overlays/constellation.js, morph-polygons.js
 * and soft-waves.js) each write out for themselves, stated once: the density-to-count
 * tables, the quality-downgrade ladder over density and pixel ratio, the 60-frame
 * render-cost meter, the canvas backing size, and the choice of how the next frame is
 * requested.
 */
module Governor {

  // ------------------------------------------------------------- count tables

  /** A `{ low, medium, high }` table of entity counts. */
  datatype CountTable = CountTable(low: nat, medium: nat, high: nat)

  const ParticleCounts := CountTable(40, 80, 140)
  const PolygonCounts := CountTable(3, 5, 8)
  const WaveCounts := CountTable(2, 3, 4)

  /**
   * `table[density] || table.medium`: the entry of a known density, unless it is zero;
   * any other density string takes the medium entry.
   */
  function EntityCount(t: CountTable, density: string): (n: nat)
    ensures n == t.low || n == t.medium || n == t.high
    ensures density != "low" && density != "medium" && density != "high" ==> n == t.medium
  {
    var entry :=
      if density == "low" then t.low
      else if density == "medium" then t.medium
      else if density == "high" then t.high
      else 0;
    if entry != 0 then entry else t.medium
  }

  /** A table with positive, non-decreasing entries. */
  predicate Graded(t: CountTable)
  {
    0 < t.low <= t.medium <= t.high
  }

  /** In a graded table the count never falls as the density rises, and is never zero. */
  lemma GradedCounts(t: CountTable)
    requires Graded(t)
    ensures EntityCount(t, "low") == t.low && EntityCount(t, "medium") == t.medium
    ensures EntityCount(t, "high") == t.high
    ensures 0 < EntityCount(t, "low") <= EntityCount(t, "medium") <= EntityCount(t, "high")
    ensures forall d :: 0 < EntityCount(t, d)
  {
  }

  /** The three tables of the overlays, read at each density. */
  lemma OverlayCounts()
    ensures Graded(ParticleCounts) && Graded(PolygonCounts) && Graded(WaveCounts)
    ensures EntityCount(ParticleCounts, "low") == 40 && EntityCount(ParticleCounts, "medium") == 80
    ensures EntityCount(ParticleCounts, "high") == 140
    ensures EntityCount(PolygonCounts, "low") == 3 && EntityCount(PolygonCounts, "medium") == 5
    ensures EntityCount(PolygonCounts, "high") == 8
    ensures EntityCount(WaveCounts, "low") == 2 && EntityCount(WaveCounts, "medium") == 3
    ensures EntityCount(WaveCounts, "high") == 4
  {
  }

  // --------------------------------------------------------- downgrade ladder

  /** The two knobs the governor turns down: the density tier and the pixel ratio. */
  datatype Quality = Quality(density: string, pixelRatio: real)

  /** What a downgrade step does besides changing the quality. */
  datatype Action = Regenerate | Rescale | Unchanged

  /** The density tier as a number: high 2, medium 1, anything else 0. */
  function Rank(density: string): nat
  {
    if density == "high" then 2 else if density == "medium" then 1 else 0
  }

  /** How many downgrade steps are left before the ladder's end. */
  function Slack(q: Quality): nat
  {
    Rank(q.density) + (if q.pixelRatio > 1.0 then 1 else 0)
  }

  /** The end of the ladder: neither high nor medium, and a pixel ratio of at most 1. */
  predicate Terminal(q: Quality)
  {
    q.density != "high" && q.density != "medium" && q.pixelRatio <= 1.0
  }

  /** `r` is no better than `q` in either knob. */
  predicate NoBetter(r: Quality, q: Quality)
  {
    Rank(r.density) <= Rank(q.density) && r.pixelRatio <= q.pixelRatio
  }

  /** `downgrade`: high to medium, else medium to low, else a pixel ratio above 1 to 1. */
  function Downgrade(q: Quality): (r: Quality)
    ensures NoBetter(r, q)
    ensures Terminal(q) <==> r == q
    ensures !Terminal(q) ==> Slack(r) + 1 == Slack(q)
    ensures r.pixelRatio != q.pixelRatio ==> r.pixelRatio == 1.0 && r.density == q.density
  {
    if q.density == "high" then Quality("medium", q.pixelRatio)
    else if q.density == "medium" then Quality("low", q.pixelRatio)
    else if q.pixelRatio > 1.0 then Quality(q.density, 1.0)
    else q
  }

  /** The side effect of the step: entities are regenerated on a density change, the canvas resized on a ratio change. */
  function DowngradeAction(q: Quality): (a: Action)
    ensures a == Regenerate <==> Downgrade(q).density != q.density
    ensures a == Rescale <==> Downgrade(q).pixelRatio != q.pixelRatio
    ensures a == Unchanged <==> Terminal(q)
  {
    if q.density == "high" || q.density == "medium" then Regenerate
    else if q.pixelRatio > 1.0 then Rescale
    else Unchanged
  }

  /** `n` downgrade steps in a row. */
  function DowngradeTimes(q: Quality, n: nat): Quality
    decreases n
  {
    if n == 0 then q else DowngradeTimes(Downgrade(q), n - 1)
  }

  /** Any number of steps never improves either knob. */
  lemma {:induction false} DowngradeTimesMonotone(q: Quality, n: nat)
    ensures NoBetter(DowngradeTimes(q, n), q)
    decreases n
  {
    if n > 0 {
      DowngradeTimesMonotone(Downgrade(q), n - 1);
    }
  }

  /**
   * The ladder ends: `Slack(q)` steps (at most three) reach the terminal state, and any
   * further step changes nothing.
   */
  lemma {:induction false} LadderEnds(q: Quality, n: nat)
    requires n >= Slack(q)
    ensures Terminal(DowngradeTimes(q, n))
    ensures Slack(q) <= 3
    ensures Downgrade(DowngradeTimes(q, n)) == DowngradeTimes(q, n)
    decreases n
  {
    if n > 0 {
      if Terminal(q) {
        DowngradeFixed(q, n);
      } else {
        LadderEnds(Downgrade(q), n - 1);
      }
    }
  }

  /** Downgrading a terminal quality any number of times leaves it as it is. */
  lemma {:induction false} DowngradeFixed(q: Quality, n: nat)
    requires Terminal(q)
    ensures DowngradeTimes(q, n) == q
    decreases n
  {
    if n > 0 {
      DowngradeFixed(Downgrade(q), n - 1);
    }
  }

  /** From high density at ratio 2: medium, low, then ratio 1, then nothing. */
  lemma DowngradeFromTop()
    ensures Downgrade(Quality("high", 2.0)) == Quality("medium", 2.0)
    ensures Downgrade(Quality("medium", 2.0)) == Quality("low", 2.0)
    ensures Downgrade(Quality("low", 2.0)) == Quality("low", 1.0)
    ensures Downgrade(Quality("low", 1.0)) == Quality("low", 1.0)
    ensures DowngradeTimes(Quality("high", 2.0), 3) == Quality("low", 1.0)
  {
  }

  // ------------------------------------------------------- render-cost meter

  /** Frames per check, and the average cost (ms) above which a check downgrades. */
  const Window: nat := 60
  const BudgetMs: real := 25.0

  /** The accumulators `renderTimeSum` and `renderTimeCount`. */
  datatype Meter = Meter(renderTimeSum: real, renderTimeCount: nat)

  /** The meter after one frame, and whether that frame's check asked for a downgrade. */
  datatype Sampled = Sampled(meter: Meter, downgrade: bool)

  /**
   * One frame of the governor: add the frame's cost, count it, and on the 60th frame
   * compare the average with 25 ms and reset both accumulators.
   */
  function Sample(m: Meter, renderTime: real): (r: Sampled)
    ensures m.renderTimeCount < Window ==> r.meter.renderTimeCount == (m.renderTimeCount + 1) % Window
    ensures r.meter.renderTimeCount == 0 ==> r.meter.renderTimeSum == 0.0
    ensures r.meter.renderTimeCount != 0 ==> r.meter == Meter(m.renderTimeSum + renderTime, m.renderTimeCount + 1)
    ensures r.downgrade ==> r.meter == Meter(0.0, 0)
  {
    var sum := m.renderTimeSum + renderTime;
    var count := m.renderTimeCount + 1;
    if count >= Window then Sampled(Meter(0.0, 0), sum / (count as real) > BudgetMs)
    else Sampled(Meter(sum, count), false)
  }

  function Total(costs: seq<real>): real
  {
    if costs == [] then 0.0 else Total(costs[..|costs| - 1]) + costs[|costs| - 1]
  }

  /** The meter fed a run of frame costs, with each frame's downgrade decision. */
  function Feed(m: Meter, costs: seq<real>): (r: (Meter, seq<bool>))
    ensures |r.1| == |costs|
  {
    if costs == [] then (m, [])
    else
      var before := Feed(m, costs[..|costs| - 1]);
      var s := Sample(before.0, costs[|costs| - 1]);
      (s.meter, before.1 + [s.downgrade])
  }

  /** Fewer than 60 frames from a fresh meter only accumulate: no check happens. */
  lemma {:induction false} FeedBelowWindow(costs: seq<real>)
    requires |costs| < Window
    ensures Feed(Meter(0.0, 0), costs).0 == Meter(Total(costs), |costs|)
    ensures forall k :: 0 <= k < |costs| ==> !Feed(Meter(0.0, 0), costs).1[k]
  {
    if costs != [] {
      FeedBelowWindow(costs[..|costs| - 1]);
    }
  }

  /**
   * A window of 60 frames from a fresh meter ends with the meter reset and exactly one
   * check, on the last frame, which downgrades iff the 60 frames cost more than 1500 ms.
   */
  lemma FeedWindow(costs: seq<real>)
    requires |costs| == Window
    ensures Feed(Meter(0.0, 0), costs).0 == Meter(0.0, 0)
    ensures forall k :: 0 <= k < Window - 1 ==> !Feed(Meter(0.0, 0), costs).1[k]
    ensures Feed(Meter(0.0, 0), costs).1[Window - 1] <==> Total(costs) > 1500.0
  {
    var init := costs[..Window - 1];
    FeedBelowWindow(init);
    assert Total(costs) == Total(init) + costs[Window - 1];
    var r := Feed(Meter(0.0, 0), costs);
    assert r.1 == Feed(Meter(0.0, 0), init).1 + [Sample(Meter(Total(init), Window - 1), costs[Window - 1]).downgrade];
  }

  // --------------------------------------------------------------- the canvas

  /**
   * The backing size `canvas.width = rect.width * currentPixelRatio` stores: the canvas
   * keeps an unsigned integer, so the product is truncated.
   */
  function Backing(extent: real, ratio: real): (n: nat)
    requires extent >= 0.0 && ratio > 0.0
    ensures n as real <= extent * ratio < n as real + 1.0
  {
    (extent * ratio).Floor
  }

  /**
   * The per-frame resize check: the backing size differs from the element's layout size
   * (`offsetWidth` and `offsetHeight`, whole pixels) times the ratio, compared without
   * truncation. The resize itself sizes the canvas from the fractional bounding box, so the
   * two measures can disagree.
   */
  predicate NeedsResize(width: nat, height: nat, offsetWidth: nat, offsetHeight: nat, ratio: real)
  {
    width as real != offsetWidth as real * ratio || height as real != offsetHeight as real * ratio
  }

  /**
   * On a box of whole pixels (bounding box equal to the layout size), right after a resize
   * the check passes iff both products are whole numbers: a fractional product makes every
   * frame resize (and re-randomise) again.
   */
  lemma ResizeSettles(offsetWidth: nat, offsetHeight: nat, ratio: real)
    requires ratio > 0.0
    ensures !NeedsResize(Backing(offsetWidth as real, ratio), Backing(offsetHeight as real, ratio),
                         offsetWidth, offsetHeight, ratio)
      <==> ((offsetWidth as real * ratio).Floor as real == offsetWidth as real * ratio
           && (offsetHeight as real * ratio).Floor as real == offsetHeight as real * ratio)
  {
    var w, h := offsetWidth as real, offsetHeight as real;
    BackingFloor(w, ratio);
    BackingFloor(h, ratio);
    NeedsResizeUnfolds(Backing(w, ratio), Backing(h, ratio), offsetWidth, offsetHeight, ratio);
  }

  lemma BackingFloor(extent: real, ratio: real)
    requires extent >= 0.0 && ratio > 0.0
    ensures Backing(extent, ratio) == (extent * ratio).Floor
  {
  }

  lemma NeedsResizeUnfolds(width: nat, height: nat, offsetWidth: nat, offsetHeight: nat, ratio: real)
    ensures NeedsResize(width, height, offsetWidth, offsetHeight, ratio)
      <==> width as real != offsetWidth as real * ratio || height as real != offsetHeight as real * ratio
  {
  }

  /** The 1.5 ratio on a 101-pixel box: a canvas of 151 against 151.5, resized every frame. */
  lemma FractionalRatioResizesAgain()
    ensures Backing(101.0, 1.5) == 151
    ensures NeedsResize(Backing(101.0, 1.5), Backing(100.0, 1.5), 101, 100, 1.5)
  {
  }

  /**
   * A bounding box of 100.5 pixels at ratio 2: the canvas gets 201, while the layout size
   * rounds to 101 or 100 and asks for 202 or 200, so every frame resizes again although
   * both products are whole.
   */
  lemma FractionalBoxResizesAgain()
    ensures Backing(100.5, 2.0) == 201
    ensures NeedsResize(Backing(100.5, 2.0), Backing(100.5, 2.0), 101, 101, 2.0)
    ensures NeedsResize(Backing(100.5, 2.0), Backing(100.5, 2.0), 100, 100, 2.0)
  {
  }

  /**
   * A bounding box of 100.4 pixels at ratio 1.5 with a layout size of 100: the canvas gets
   * the truncated 150, which is what the check asks for, so it settles although the box's
   * own product (150.6) is fractional.
   */
  lemma FractionalBoxSettles()
    ensures Backing(100.4, 1.5) == 150
    ensures !NeedsResize(Backing(100.4, 1.5), Backing(100.4, 1.5), 100, 100, 1.5)
  {
  }

  // ---------------------------------------------------------- frame requests

  /**
   * A callback waiting to run: an animation frame requested under `id`, or the 30 fps
   * cap's `setTimeout`, which requests a frame when it fires and is never tracked.
   */
  datatype Pending = Frame(id: nat) | CapDelay(delayMs: real)

  /** How a frame that took `deltaTime` ms asks for the next: deferred under the cap. */
  function NextRequest(capFps: bool, deltaTime: real, id: nat): (p: Pending)
    ensures p.CapDelay? <==> capFps && deltaTime < 33.0
    ensures p.CapDelay? ==> p.delayMs > 0.0 && p.delayMs == 33.0 - deltaTime
    ensures p.Frame? ==> p.id == id
  {
    if capFps && deltaTime < 33.0 then CapDelay(33.0 - deltaTime) else Frame(id)
  }

  /** `cancelAnimationFrame(id)`: the pending callbacks without frame `id`, in order. */
  function CancelFrame(s: seq<Pending>, id: nat): (r: seq<Pending>)
    ensures Frame(id) !in r
    ensures forall p :: p in r <==> p in s && p != Frame(id)
    ensures |r| <= |s|
    ensures Frame(id) !in s ==> r == s
  {
    if s == [] then []
    else CancelFrame(s[..|s| - 1], id) + (if s[|s| - 1] == Frame(id) then [] else [s[|s| - 1]])
  }
}
