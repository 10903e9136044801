/**
 * The class NSMediaHeroShowcase of assets/js/frontend.js, field for field. Each method
 * changes the object as the function of the same name in module Sequencer changes its
 * state, so every property proved there holds of the object; `Handle` delivers one
 * browser event and keeps the invariant. The grid walk of `calculateRTLOrder` keeps its
 * two nested loops.
 */
module Frontend {
  import opened Common
  import opened Raster
  import opened Sequencer

  // ------------------------------------------------------- the walk's lemmas

  /** Picking from two lists of positions one after the other. */
  lemma PickConcat(tiles: seq<Tile>, a: seq<int>, b: seq<int>)
    requires InRange(a, |tiles|) && InRange(b, |tiles|)
    ensures InRange(a + b, |tiles|)
    ensures Pick(tiles, a + b) == Pick(tiles, a) + Pick(tiles, b)
  {
    var ab := a + b;
    assert forall p | 0 <= p < |a| :: ab[p] == a[p];
    assert forall p | 0 <= p < |b| :: ab[|a| + p] == b[p];
  }

  /** A descending run of non-negative cells, kept below `n`, lies in `0..n-1`. */
  lemma KeptRunInRange(top: int, lo: int, n: int)
    requires lo >= 0 || top <= lo
    ensures InRange(KeepBelow(Descending(top, lo), n), n)
  {
    var run := Descending(top, lo);
    var kept := KeepBelow(run, n);
    DescendingAt(top, lo);
    forall p | 0 <= p < |kept|
      ensures 0 <= kept[p] < n
    {
      assert kept[p] in kept;
      var q :| 0 <= q < |run| && run[q] == kept[p];
    }
  }

  /** The walk up to row `row + 1` is the walk up to `row` and then that row, mirrored. */
  lemma RtlNextRow(cols: int, row: int, n: int)
    requires row >= 0
    ensures KeepBelow(RtlIndices(cols, row + 1), n)
      == KeepBelow(RtlIndices(cols, row), n) + KeepBelow(Descending(row * cols + cols, row * cols), n)
  {
    assert RtlIndices(cols, row + 1) == RtlIndices(cols, row) + MirroredRow(cols, row);
    KeepBelowConcat(RtlIndices(cols, row), MirroredRow(cols, row), n);
  }

  /** The tiles picked up to row `row + 1` are those up to `row` and then that row's. */
  lemma PickNextRow(tiles: seq<Tile>, cols: int, row: int)
    requires row >= 0
    requires InRange(KeepBelow(RtlIndices(cols, row), |tiles|), |tiles|)
    requires InRange(KeepBelow(Descending(row * cols + cols, row * cols), |tiles|), |tiles|)
    ensures InRange(KeepBelow(RtlIndices(cols, row + 1), |tiles|), |tiles|)
    ensures Pick(tiles, KeepBelow(RtlIndices(cols, row + 1), |tiles|))
      == Pick(tiles, KeepBelow(RtlIndices(cols, row), |tiles|))
        + Pick(tiles, KeepBelow(Descending(row * cols + cols, row * cols), |tiles|))
  {
    RtlNextRow(cols, row, |tiles|);
    PickConcat(tiles, KeepBelow(RtlIndices(cols, row), |tiles|),
      KeepBelow(Descending(row * cols + cols, row * cols), |tiles|));
  }

  /** The tiles at cells `top - 1` down to `lo` that exist: the specification of the inner loop. */
  function RunTiles(tiles: seq<Tile>, top: int, lo: int): seq<Tile>
    requires lo >= 0 || top <= lo
    decreases top - lo
  {
    if top <= lo then [] else RunTiles(tiles, top, lo + 1) + (if lo < |tiles| then [tiles[lo]] else [])
  }

  /** The tiles of the first `rows` rows, each row last column first: the outer loop. */
  function WalkTiles(tiles: seq<Tile>, cols: int, rows: int): seq<Tile>
    decreases rows
  {
    if rows <= 0 then []
    else
      RowStart(rows - 1, cols);
      WalkTiles(tiles, cols, rows - 1) + RunTiles(tiles, (rows - 1) * cols + cols, (rows - 1) * cols)
  }

  /** The walk up to row `row + 1` is the walk up to `row` and then that row. */
  lemma WalkNextRow(tiles: seq<Tile>, cols: int, row: int)
    requires row >= 0
    ensures row * cols >= 0 || cols <= 0
    ensures WalkTiles(tiles, cols, row + 1) == WalkTiles(tiles, cols, row) + RunTiles(tiles, row * cols + cols, row * cols)
  {
    RowStart(row, cols);
    assert row + 1 - 1 == row;
  }

  /** One row as the loop takes it is the row's cells, kept below the tile count, picked. */
  lemma {:induction false} RunTilesIsPick(tiles: seq<Tile>, top: int, lo: int)
    requires lo >= 0 || top <= lo
    ensures InRange(KeepBelow(Descending(top, lo), |tiles|), |tiles|)
    ensures RunTiles(tiles, top, lo) == Pick(tiles, KeepBelow(Descending(top, lo), |tiles|))
    decreases top - lo
  {
    KeptRunInRange(top, lo, |tiles|);
    if top > lo {
      RunTilesIsPick(tiles, top, lo + 1);
      KeepBelowNext(top, lo, |tiles|);
      var kept := KeepBelow(Descending(top, lo + 1), |tiles|);
      if lo < |tiles| {
        PickConcat(tiles, kept, [lo]);
      } else {
        assert kept + [] == kept;
      }
    }
  }

  /** The two loops of `calculateRTLOrder` pick the tiles at the right-to-left walk's cells. */
  lemma {:induction false} WalkTilesIsPick(tiles: seq<Tile>, cols: int, rows: int)
    ensures InRange(KeepBelow(RtlIndices(cols, rows), |tiles|), |tiles|)
    ensures WalkTiles(tiles, cols, rows) == Pick(tiles, KeepBelow(RtlIndices(cols, rows), |tiles|))
    decreases rows
  {
    if rows > 0 {
      var row := rows - 1;
      WalkTilesIsPick(tiles, cols, row);
      WalkNextRow(tiles, cols, row);
      RunTilesIsPick(tiles, row * cols + cols, row * cols);
      PickNextRow(tiles, cols, row);
    }
  }

  /** Row `row` of a grid with a positive number of columns starts at a cell number of at least 0. */
  lemma RowStart(row: int, cols: int)
    requires row >= 0
    ensures row * cols >= 0 || cols <= 0
  {
    if cols > 0 && row > 0 {
      RowStart(row - 1, cols);
      assert row * cols == (row - 1) * cols + cols;
    }
  }

  // ----------------------------------------------------------------- the class

  class Showcase {
    const page: Page
    const settings: Settings
    const resizeObserver: bool

    var tiles: seq<Tile>
    var currentIndex: nat
    var isPlaying: bool
    var isPaused: bool
    var timeoutId: Option<nat>
    var zoom: Zoom
    var timers: seq<Timer>
    var nextId: nat
    var isVisible: bool
    var prefersReducedMotion: bool
    var reducedStyles: bool
    var overlay: Option<OverlayHandle>
    var observing: bool
    var listening: bool
    var resizing: bool

    function Ctx(): Context
    {
      Context(page, settings, resizeObserver)
    }

    /** The object's fields as a sequencer state. */
    function State(): State
      reads this
    {
      Sequencer.State(tiles, currentIndex, isPlaying, isPaused, timeoutId, zoom, timers, nextId,
        Env(isVisible, prefersReducedMotion, reducedStyles, overlay, observing, listening, resizing))
    }

    ghost predicate Valid()
      reads this
    {
      Sequencer.Valid(State(), Ctx())
    }

    /**
     * `new NSMediaHeroShowcase(element)`: the embedded settings, or the defaults when
     * there are none (or they do not parse), then `init`.
     */
    constructor (page: Page, embedded: Option<Settings>, resizeObserver: bool, reducedMotion: bool)
      ensures this.page == page && this.resizeObserver == resizeObserver
      ensures settings == (if embedded.Some? then embedded.value else DefaultSettings())
      ensures State() == Initial(Ctx(), reducedMotion)
      ensures Valid()
    {
      this.page := page;
      settings := if embedded.Some? then embedded.value else DefaultSettings();
      this.resizeObserver := resizeObserver;
      tiles, currentIndex := [], 0;
      isPlaying, isPaused, timeoutId := false, false, None;
      zoom, timers, nextId := Zoom(false, None, Idle), [], 1;
      isVisible, prefersReducedMotion, reducedStyles := false, reducedMotion, false;
      overlay := None;
      observing, listening, resizing := false, false, false;
      new;
      Init();
      InitialValid(Ctx(), reducedMotion);
    }

    /**
     * `init`: nothing without the zoom container and content; otherwise collect the
     * tiles, register the observers and listeners, and start when there is a tile. The
     * overlay module loads later (`OnOverlayLoaded`).
     */
    method Init()
      requires State() == Blank(prefersReducedMotion)
      modifies this
      ensures State() == Initial(Ctx(), old(prefersReducedMotion))
    {
      if !page.zoomLayers {
        return;
      }
      CollectTiles();
      observing := true;
      listening := true;
      resizing := resizeObserver;
      assert State() == Ready(Ctx(), prefersReducedMotion);
      if |tiles| > 0 {
        StartAnimation();
      }
    }

    /** `collectTiles`. */
    method CollectTiles()
      modifies this`tiles
      ensures tiles == Sequencer.CollectTiles(page, settings)
    {
      tiles := Present(page.elements);
      if settings.order == "rtl" {
        tiles := CalculateRtlOrder();
      }
    }

    /**
     * `calculateRTLOrder`: rows from the top, each from its last column to its first,
     * taking the tile at every cell that has one.
     */
    method CalculateRtlOrder() returns (ordered: seq<Tile>)
      ensures ordered == RtlOrder(tiles, Cols(page), Rows(page))
    {
      ordered := WalkRows(Cols(page), Rows(page));
      WalkTilesIsPick(tiles, Cols(page), Rows(page));
    }

    /** The outer loop of `calculateRTLOrder`. */
    method WalkRows(cols: int, rows: int) returns (ordered: seq<Tile>)
      ensures ordered == WalkTiles(tiles, cols, rows)
    {
      ordered := [];
      var row := 0;
      while row < rows
        invariant 0 <= row && (rows >= 0 ==> row <= rows) && (rows < 0 ==> row == 0)
        invariant ordered == WalkTiles(tiles, cols, row)
      {
        WalkNextRow(tiles, cols, row);
        var picked := MirroredRowTiles(row * cols, cols);
        ordered := ordered + picked;
        row := row + 1;
      }
    }

    /** The inner loop of `calculateRTLOrder`: one row's tiles, last column first. */
    method MirroredRowTiles(base: int, cols: int) returns (picked: seq<Tile>)
      requires base >= 0 || cols <= 0
      ensures picked == RunTiles(tiles, base + cols, base)
    {
      picked := [];
      var col := cols - 1;
      while col >= 0
        invariant col <= cols - 1 && (cols > 0 ==> col >= -1) && (cols <= 0 ==> col == cols - 1)
        invariant base >= 0 || cols <= 0
        invariant picked == RunTiles(tiles, base + cols, base + col + 1)
      {
        var index := base + col;
        if index < |tiles| {
          picked := picked + [tiles[index]];
        }
        col := col - 1;
      }
    }

    // ------------------------------------------------------------- timers

    /** `setTimeout(callback, delay)`: the new timer's id. */
    method SetTimeout(delay: int, callback: Callback) returns (id: nat)
      modifies this`timers, this`nextId
      ensures State() == Schedule(old(State()), delay, callback) && id == old(nextId)
    {
      id := nextId;
      timers := timers + [Timer(id, delay, callback)];
      nextId := nextId + 1;
    }

    /** `if (this.timeoutId) { clearTimeout(this.timeoutId); this.timeoutId = null; }` */
    method ClearTimeout()
      modifies this`timers, this`timeoutId
      ensures State() == Sequencer.ClearTimeout(old(State()))
    {
      if timeoutId.Some? {
        timers := Without(timers, timeoutId.value);
        timeoutId := None;
      }
    }

    // --------------------------------------------------------- the sequence

    method StartAnimation()
      requires Indexed(State())
      modifies this
      ensures State() == Sequencer.StartAnimation(old(State()))
    {
      if isPlaying {
        return;
      }
      isPlaying := true;
      isPaused := false;
      currentIndex := 0;
      NextTile();
    }

    method PauseAnimation()
      modifies this
      ensures State() == Pause(old(State()))
    {
      isPaused := true;
      ClearTimeout();
    }

    method ResumeAnimation()
      requires Indexed(State())
      modifies this
      ensures State() == Resume(old(State()))
    {
      if !isPaused || !isVisible {
        return;
      }
      isPaused := false;
      NextTile();
    }

    method StopAnimation()
      modifies this
      ensures State() == Stop(old(State()))
      ensures !isPlaying && !isPaused && timeoutId == None && !zoom.active
    {
      isPlaying := false;
      isPaused := false;
      ClearTimeout();
      ResetZoom();
    }

    method NextTile()
      requires Indexed(State())
      modifies this
      ensures State() == Sequencer.NextTile(old(State()))
    {
      if isPaused || !isPlaying || |tiles| == 0 {
        return;
      }
      var tile := tiles[currentIndex];
      ZoomToTile(tile);
      currentIndex := (currentIndex + 1) % |tiles|;
    }

    method ZoomToTile(tile: Tile)
      modifies this
      ensures State() == Sequencer.ZoomToTile(old(State()), tile)
    {
      zoom := Zoom(true, Some(tile), Entering);
      var _ := SetTimeout(50, Settle(tile));
    }

    /** The 50 ms callback of `zoomToTile`. */
    method SettleCallback(tile: Tile)
      modifies this
      ensures State() == Settled(old(State()), settings, tile)
    {
      if isPaused {
        return;
      }
      var duration := if prefersReducedMotion then 300 else settings.zoomInDuration;
      zoom := zoom.(stage := Full(duration));
      var id := SetTimeout(settings.displayDuration, Hold(tile));
      timeoutId := Some(id);
    }

    method ZoomOut()
      modifies this
      ensures State() == Sequencer.ZoomOut(old(State()), settings)
    {
      if isPaused {
        return;
      }
      var duration := if prefersReducedMotion then 300 else settings.zoomOutDuration;
      zoom := zoom.(stage := Leaving(duration));
      var _ := SetTimeout(duration, ZoomOutEnd);
    }

    /** The callback at the end of `zoomOut`'s transition. */
    method ZoomOutEnded()
      modifies this
      ensures State() == ZoomedOut(old(State()))
    {
      ResetZoom();
      if !isPaused && isPlaying {
        var id := SetTimeout(100, Gap);
        timeoutId := Some(id);
      }
    }

    method ResetZoom()
      modifies this`zoom
      ensures State() == Sequencer.ResetZoom(old(State()))
    {
      zoom := zoom.(active := false, stage := Idle);
    }

    /** Pending timer `k` comes due. */
    method Fire(k: nat)
      requires k < |timers| && Indexed(State())
      modifies this
      ensures State() == Sequencer.Fire(old(State()), settings, k)
    {
      var callback := timers[k].callback;
      timers := RemoveAt(timers, k);
      match callback
      case Settle(tile) =>
        SettleCallback(tile);
      case Hold(tile) =>
        if !isPaused {
          ZoomOut();
        }
      case ZoomOutEnd =>
        ZoomOutEnded();
      case Gap =>
        NextTile();
    }

    // ------------------------------------------------------------ overlay

    method StartOverlay()
      modifies this`overlay
      ensures State() == Sequencer.StartOverlay(old(State()))
    {
      if overlay.Some? && !prefersReducedMotion && isVisible {
        overlay := Some(Started(overlay.value));
      }
    }

    method StopOverlay()
      modifies this`overlay
      ensures State() == Sequencer.StopOverlay(old(State()))
    {
      if overlay.Some? {
        overlay := Some(overlay.value.(running := false));
      }
    }

    /** The overlay module has loaded: make the instance, and start it if it may run. */
    method OnOverlayLoaded()
      modifies this`overlay
      ensures State() == Sequencer.OnOverlayLoaded(old(State()), Ctx())
    {
      if !page.canvasOverlay || !listening || overlay.Some? {
        return;
      }
      var instance := OverlayHandle(false, prefersReducedMotion, false);
      if isVisible && !prefersReducedMotion {
        instance := Started(instance);
      }
      overlay := Some(instance);
    }

    // ------------------------------------------------------------- events

    method OnIntersection(visible: bool)
      requires Indexed(State())
      modifies this
      ensures State() == Sequencer.OnIntersection(old(State()), visible)
    {
      if !observing {
        return;
      }
      isVisible := visible;
      if isVisible && !isPlaying {
        ResumeAnimation();
        StartOverlay();
      } else if !isVisible && isPlaying {
        PauseAnimation();
        StopOverlay();
      }
    }

    method OnVisibilityChange(hidden: bool)
      requires Valid()
      modifies this
      ensures State() == Sequencer.OnVisibilityChange(old(State()), Ctx(), hidden)
    {
      if !listening {
        return;
      }
      if hidden {
        PauseAnimation();
        StopOverlay();
      } else if isVisible {
        CollectTiles();
        ResumeAnimation();
        StartOverlay();
      }
    }

    method OnMotionChange(matches: bool)
      modifies this
      ensures State() == Sequencer.OnMotionChange(old(State()), matches)
    {
      if !listening {
        return;
      }
      prefersReducedMotion := matches;
      if prefersReducedMotion {
        reducedStyles := true;
        StopOverlay();
      } else if isVisible {
        StartOverlay();
      }
    }

    method OnResize()
      modifies this
      ensures State() == Sequencer.OnResize(old(State()), Ctx())
    {
      if !resizing {
        return;
      }
      if zoom.active {
        ResetZoom();
      }
      CollectTiles();
    }

    method Destroy()
      modifies this
      ensures State() == Sequencer.Destroy(old(State()), Ctx())
    {
      if !page.zoomLayers {
        isPlaying, isPaused := false, false;
        return;
      }
      StopAnimation();
      StopOverlay();
      if overlay.Some? {
        overlay := Some(overlay.value.(destroyed := true));
      }
      observing := false;
    }

    /** One event from the browser, kept to the invariant. */
    method Handle(e: Event)
      requires Valid()
      modifies this
      ensures State() == Step(old(State()), Ctx(), e)
      ensures Valid()
    {
      StepValid(State(), Ctx(), e);
      match e
      case Intersect(visible) => OnIntersection(visible);
      case TabChange(hidden) => OnVisibilityChange(hidden);
      case MotionChange(matches) => OnMotionChange(matches);
      case Resized => OnResize();
      case Timeout(k) =>
        if k < |timers| {
          Fire(k);
        }
      case OverlayLoaded => OnOverlayLoaded();
      case Destroyed => Destroy();
    }
  }
}
