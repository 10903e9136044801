/**
 * The tile sequencer of assets/js/frontend.js (class NSMediaHeroShowcase) as a state
 * machine: the state of one showcase, the operations its methods perform on it, and the
 * events the browser delivers (viewport and tab visibility changes, the reduced-motion
 * media query, resizes, timers coming due, the overlay module finishing its load, and an
 * explicit `destroy`). The class in frontend.dfy is proved to follow these functions.
 *
 * Timers are explicit: `setTimeout` appends a `Timer` with a fresh id to `timers`, the
 * browser later fires any pending one (`Timeout(k)`), and `clearTimeout` removes it.
 * The page is a fixed snapshot, so collecting the tiles again yields the same tiles.
 */
module Sequencer {
  import opened Common
  import opened Text
  import opened Raster
  import Config

  // ---------------------------------------------------------------- the page

  /** One `.nsmhs-tile` element: a media element, a poster fallback, a `<video>` inside. */
  datatype TileElement = TileElement(hasMedia: bool, hasPoster: bool, hasVideo: bool)

  /** A tile the sequencer shows: its position among the tile elements and its type. */
  datatype Tile = Tile(index: nat, kind: MediaKind, hasMedia: bool)

  /**
   * What the script finds in the showcase element: the tile elements, the computed
   * `--nsmhs-pc-cols` and `--nsmhs-pc-rows`, whether the zoom container and content are
   * there, and whether a mid layer asks for a canvas overlay whose module loads.
   */
  datatype Page = Page(
    elements: seq<TileElement>, pcCols: string, pcRows: string,
    zoomLayers: bool, canvasOverlay: bool)

  /** The parts of the embedded settings JSON the sequencer reads. */
  datatype Settings = Settings(order: string, displayDuration: int, zoomInDuration: int, zoomOutDuration: int)

  /** A showcase's fixed surroundings; `resizeObserver` says whether the browser has one. */
  datatype Context = Context(page: Page, settings: Settings, resizeObserver: bool)

  /** `getDefaultSettings`, used when there is no settings script or it does not parse. */
  function DefaultSettings(): Settings
  {
    Settings("ltr", 3000, 900, 700)
  }

  /** `collectTiles` keeps the elements with a media element or a poster. */
  predicate Shown(e: TileElement)
  {
    e.hasMedia || e.hasPoster
  }

  function TileOf(e: TileElement, index: nat): Tile
  {
    Tile(index, if e.hasVideo then Video else Image, e.hasMedia)
  }

  /** `collectTiles`' filter: the shown tile elements, each numbered by its position. */
  function Present(elements: seq<TileElement>): (r: seq<Tile>)
    ensures |r| <= |elements|
  {
    if elements == [] then []
    else
      var last := |elements| - 1;
      Present(elements[..last]) + (if Shown(elements[last]) then [TileOf(elements[last], last)] else [])
  }

  /**
   * The filter keeps exactly the shown elements, in document order, each as the tile
   * its element describes.
   */
  lemma {:induction false} PresentContents(elements: seq<TileElement>)
    ensures var r := Present(elements);
      && (forall p :: 0 <= p < |r| ==>
           r[p].index < |elements| && Shown(elements[r[p].index])
           && r[p] == TileOf(elements[r[p].index], r[p].index))
      && (forall p, q :: 0 <= p < q < |r| ==> r[p].index < r[q].index)
      && (forall i :: 0 <= i < |elements| && Shown(elements[i]) ==> TileOf(elements[i], i) in r)
  {
    if elements != [] {
      var last := |elements| - 1;
      var front := elements[..last];
      PresentContents(front);
      assert forall i :: 0 <= i < last ==> front[i] == elements[i];
      var head := Present(front);
      var r := Present(elements);
      assert r == head + (if Shown(elements[last]) then [TileOf(elements[last], last)] else []);
      forall p | 0 <= p < |head|
        ensures r[p] == head[p] && head[p].index < last
        ensures Shown(elements[r[p].index]) && r[p] == TileOf(elements[r[p].index], r[p].index)
      {
        assert head[p].index < |front|;
        assert front[head[p].index] == elements[head[p].index];
      }
    }
  }

  /** `parseInt(value) || fallback`: a value that reads as 0, or as no number, falls back. */
  function CssInt(value: string, fallback: int): int
  {
    if LeadingInt(value) == 0 then fallback else LeadingInt(value)
  }

  /** The desktop grid the script reads from the computed style, 5 x 3 by default. */
  function Cols(page: Page): int
  {
    CssInt(page.pcCols, 5)
  }

  function Rows(page: Page): int
  {
    CssInt(page.pcRows, 3)
  }

  /** Every position in `idx` is one of `0..n-1`. */
  predicate InRange(idx: seq<int>, n: int)
  {
    forall p :: 0 <= p < |idx| ==> 0 <= idx[p] < n
  }

  /** The tiles at the positions `idx`, in that order. */
  function Pick(tiles: seq<Tile>, idx: seq<int>): (r: seq<Tile>)
    requires InRange(idx, |tiles|)
    ensures |r| == |idx|
  {
    seq(|idx|, p requires 0 <= p < |idx| => tiles[idx[p]])
  }

  /** The right-to-left walk kept below `n` lists only positions in `0..n-1`. */
  lemma RtlInRange(cols: int, rows: int, n: int)
    ensures InRange(KeepBelow(RtlIndices(cols, rows), n), n)
  {
    var all := RtlIndices(cols, rows);
    var kept := KeepBelow(all, n);
    RtlNonNegative(cols, rows);
    forall p | 0 <= p < |kept|
      ensures 0 <= kept[p] < n
    {
      assert kept[p] in kept;
      var q :| 0 <= q < |all| && all[q] == kept[p];
    }
  }

  /** `calculateRTLOrder`: the tiles at the grid cells walked right to left that exist. */
  function RtlOrder(tiles: seq<Tile>, cols: int, rows: int): seq<Tile>
  {
    RtlInRange(cols, rows, |tiles|);
    Pick(tiles, KeepBelow(RtlIndices(cols, rows), |tiles|))
  }

  /** `collectTiles`: the shown tiles, reordered right to left when the order says so. */
  function CollectTiles(page: Page, settings: Settings): seq<Tile>
  {
    var present := Present(page.elements);
    if settings.order == "rtl" then RtlOrder(present, Cols(page), Rows(page)) else present
  }

  // ------------------------------------------------------------ right to left

  /**
   * Reordering keeps `min(tiles, cols * rows)` tiles; when the grid has room for them
   * all, every tile is still there, each at one position only.
   */
  lemma RtlOrderContents(tiles: seq<Tile>, cols: int, rows: int)
    requires cols > 0 && rows >= 0
    ensures |RtlOrder(tiles, cols, rows)| == Min(|tiles|, cols * rows)
    ensures |tiles| <= cols * rows ==> forall k :: 0 <= k < |tiles| ==> tiles[k] in RtlOrder(tiles, cols, rows)
  {
    var idx := KeepBelow(RtlIndices(cols, rows), |tiles|);
    RtlKeptLength(cols, rows, |tiles|);
    RtlInRange(cols, rows, |tiles|);
    var r := RtlOrder(tiles, cols, rows);
    if |tiles| <= cols * rows {
      RtlMirror(cols, rows);
      forall k | 0 <= k < |tiles|
        ensures tiles[k] in r
      {
        assert k in RtlIndices(cols, rows);
        assert k in idx;
        var p :| 0 <= p < |idx| && idx[p] == k;
        assert r[p] == tiles[k];
      }
    }
  }

  /** Six tiles on a 3 x 2 grid play as 2, 1, 0, 5, 4, 3. */
  lemma RtlOrderThreeByTwo(tiles: seq<Tile>, cols: int, rows: int)
    requires |tiles| == 6 && cols == 3 && rows == 2
    ensures RtlOrder(tiles, cols, rows) == [tiles[2], tiles[1], tiles[0], tiles[5], tiles[4], tiles[3]]
  {
    RtlKeptThreeByTwo(cols, rows, |tiles|);
    RtlOrderPicks(tiles, cols, rows);
    PickThreeByTwo(tiles);
  }

  /** `RtlOrder` is the pick of the kept right-to-left walk. */
  lemma RtlOrderPicks(tiles: seq<Tile>, cols: int, rows: int)
    ensures InRange(KeepBelow(RtlIndices(cols, rows), |tiles|), |tiles|)
    ensures RtlOrder(tiles, cols, rows) == Pick(tiles, KeepBelow(RtlIndices(cols, rows), |tiles|))
  {
    RtlInRange(cols, rows, |tiles|);
  }

  lemma PickThreeByTwo(tiles: seq<Tile>)
    requires |tiles| == 6
    ensures Pick(tiles, [2, 1, 0, 5, 4, 3]) == [tiles[2], tiles[1], tiles[0], tiles[5], tiles[4], tiles[3]]
  {
    var r := Pick(tiles, [2, 1, 0, 5, 4, 3]);
    assert r[0] == tiles[2] && r[1] == tiles[1] && r[2] == tiles[0];
    assert r[3] == tiles[5] && r[4] == tiles[4] && r[5] == tiles[3];
  }

  lemma RtlKeptThreeByTwo(cols: int, rows: int, n: int)
    requires cols == 3 && rows == 2 && n == 6
    ensures KeepBelow(RtlIndices(cols, rows), n) == [2, 1, 0, 5, 4, 3]
  {
    RtlThreeByTwo();
    KeepBelowAll([2, 1, 0, 5, 4, 3], 6);
  }

  /**
   * The frontend reads back the desktop grid the server writes into its custom
   * properties, except that a zero count falls back to 5 columns or 3 rows.
   */
  lemma GridReadBack(page: Page, grid: Config.Grid)
    requires page.pcCols == IntToString(grid.cols) && page.pcRows == IntToString(grid.rows)
    ensures Cols(page) == (if grid.cols == 0 then 5 else grid.cols)
    ensures Rows(page) == (if grid.rows == 0 then 3 else grid.rows)
  {
    LeadingIntOfIntToString(grid.cols);
    LeadingIntOfIntToString(grid.rows);
  }

  // --------------------------------------------------------------- the state

  /** What a pending timer will run: the four callbacks of one zoom cycle. */
  datatype Callback = Settle(tile: Tile) | Hold(tile: Tile) | ZoomOutEnd | Gap

  datatype Timer = Timer(id: nat, delay: int, callback: Callback)

  /** The transition the zoom content is in; the durations are the ones in its style. */
  datatype Stage = Idle | Entering | Full(duration: int) | Leaving(duration: int)

  /**
   * `.nsmhs-zoom-content`: whether it has the `nsmhs-active` class, the tile whose clone
   * it holds, and its transition.
   */
  datatype Zoom = Zoom(active: bool, content: Option<Tile>, stage: Stage)

  /**
   * The overlay instance as the showcase sees it: running or not, the reduced-motion
   * flag it was created with, and whether `destroy` was called on it.
   */
  datatype OverlayHandle = OverlayHandle(running: bool, reducedMotion: bool, destroyed: bool)

  /**
   * What the showcase knows about its surroundings. `observing`: the intersection
   * observer is connected; `listening`: the document and media-query listeners are
   * registered; `resizing`: a resize observer is. `reducedStyles`: the reduced-motion
   * custom properties have been written.
   */
  datatype Env = Env(
    isVisible: bool, prefersReducedMotion: bool, reducedStyles: bool,
    overlay: Option<OverlayHandle>, observing: bool, listening: bool, resizing: bool)

  /** One showcase: its tiles, where the sequence is, the zoom content and pending timers. */
  datatype State = State(
    tiles: seq<Tile>, currentIndex: nat, isPlaying: bool, isPaused: bool,
    timeoutId: Option<nat>, zoom: Zoom, timers: seq<Timer>, nextId: nat, env: Env)

  /** `this.tiles[this.currentIndex]` names a tile whenever there are tiles. */
  predicate Indexed(s: State)
  {
    s.currentIndex == 0 || s.currentIndex < |s.tiles|
  }

  /** The callbacks whose timer the script remembers in `timeoutId`. */
  predicate Tracked(c: Callback)
  {
    c.Hold? || c.Gap?
  }

  /**
   * Timer ids are positive and below `nextId`, so a new one is fresh, and `timeoutId`
   * only ever names a hold or a gap timer: the 50 ms settle timer and the zoom-out
   * timer are never remembered.
   */
  ghost predicate Numbered(s: State)
  {
    && s.nextId >= 1
    && (forall t :: t in s.timers ==> 1 <= t.id < s.nextId)
    && (s.timeoutId.Some? ==> 1 <= s.timeoutId.value < s.nextId)
    && (forall t :: t in s.timers && s.timeoutId == Some(t.id) ==> Tracked(t.callback))
  }

  /** An overlay never runs while reduced motion is asked for, now or when it was made. */
  predicate OverlayCalm(s: State)
  {
    (s.env.overlay.Some? && (s.env.overlay.value.reducedMotion || s.env.prefersReducedMotion))
      ==> !s.env.overlay.value.running
  }

  ghost predicate Valid(s: State, ctx: Context)
  {
    && s.tiles == (if s.env.listening then CollectTiles(ctx.page, ctx.settings) else [])
    && (s.env.resizing ==> s.env.listening)
    && Indexed(s)
    && Numbered(s)
    && OverlayCalm(s)
  }

  // ---------------------------------------------------------------- timers

  /**
   * What the sequence's own steps leave alone: the tiles, whether it plays, visibility,
   * reduced motion and its styles, the overlay, and the registered observers.
   */
  predicate SameSetup(r: State, s: State)
  {
    r.tiles == s.tiles && r.isPlaying == s.isPlaying && r.env == s.env
  }

  /** `setTimeout`: a pending timer with the next id. */
  function Schedule(s: State, delay: int, callback: Callback): (r: State)
    ensures SameSetup(r, s) && r.currentIndex == s.currentIndex
  {
    s.(timers := s.timers + [Timer(s.nextId, delay, callback)], nextId := s.nextId + 1)
  }

  /** The pending timers other than the one with id `id`. */
  function Without(timers: seq<Timer>, id: nat): (r: seq<Timer>)
    ensures forall t :: t in r <==> t in timers && t.id != id
  {
    if timers == [] then []
    else (if timers[0].id == id then [] else [timers[0]]) + Without(timers[1..], id)
  }

  /** `if (this.timeoutId) { clearTimeout(this.timeoutId); this.timeoutId = null; }` */
  function ClearTimeout(s: State): (r: State)
    ensures SameSetup(r, s) && r.currentIndex == s.currentIndex
  {
    if s.timeoutId.Some? then s.(timers := Without(s.timers, s.timeoutId.value), timeoutId := None) else s
  }

  // ------------------------------------------------------------ operations

  /** `resetZoom`: the zoom content loses `nsmhs-active` and its inline transition. */
  function ResetZoom(s: State): (r: State)
    ensures SameSetup(r, s) && r.currentIndex == s.currentIndex
  {
    s.(zoom := s.zoom.(active := false, stage := Idle))
  }

  /** `zoomToTile`: the tile's clone shown at the tile's place, settling after 50 ms. */
  function ZoomToTile(s: State, tile: Tile): State
  {
    Schedule(s.(zoom := Zoom(true, Some(tile), Entering)), 50, Settle(tile))
  }

  /** `nextTile`: zoom to the current tile and move on, unless paused, stopped or empty. */
  function NextTile(s: State): (r: State)
    requires Indexed(s)
    ensures Indexed(r) && SameSetup(r, s)
    ensures s.isPaused || !s.isPlaying || s.tiles == [] ==> r == s
    ensures !(s.isPaused || !s.isPlaying || s.tiles == []) ==>
      && r.currentIndex == (s.currentIndex + 1) % |s.tiles|
      && r.zoom == Zoom(true, Some(s.tiles[s.currentIndex]), Entering)
      && r.timers == s.timers + [Timer(s.nextId, 50, Settle(s.tiles[s.currentIndex]))]
      && r.nextId == s.nextId + 1 && r.timeoutId == s.timeoutId && r.isPaused == s.isPaused
  {
    if s.isPaused || !s.isPlaying || |s.tiles| == 0 then s
    else ZoomToTile(s, s.tiles[s.currentIndex]).(currentIndex := (s.currentIndex + 1) % |s.tiles|)
  }

  /** `startAnimation`: from the first tile, unless already playing. */
  function StartAnimation(s: State): (r: State)
    requires Indexed(s)
    ensures Indexed(r)
    ensures s.isPlaying ==> r == s
    ensures !s.isPlaying ==> r.isPlaying && !r.isPaused && r.tiles == s.tiles && r.env == s.env
    ensures !s.isPlaying && s.tiles == [] ==> r.currentIndex == 0 && r.timers == s.timers
    ensures !s.isPlaying && s.tiles != [] ==>
      && r.currentIndex == 1 % |s.tiles|
      && r.zoom == Zoom(true, Some(s.tiles[0]), Entering)
      && r.timers == s.timers + [Timer(s.nextId, 50, Settle(s.tiles[0]))]
  {
    if s.isPlaying then s
    else NextTile(s.(isPlaying := true, isPaused := false, currentIndex := 0))
  }

  /** `pauseAnimation`: paused, and the remembered timer cancelled. */
  function Pause(s: State): (r: State)
    ensures SameSetup(r, s) && r.currentIndex == s.currentIndex
    ensures r.isPaused && r.timeoutId == None && r.zoom == s.zoom
  {
    ClearTimeout(s.(isPaused := true))
  }

  /** `resumeAnimation`: only a paused, visible showcase resumes, at the current tile. */
  function Resume(s: State): (r: State)
    requires Indexed(s)
    ensures Indexed(r) && SameSetup(r, s)
    ensures !(s.isPaused && s.env.isVisible) ==> r == s
    ensures s.isPaused && s.env.isVisible ==> !r.isPaused
    ensures s.isPaused && s.env.isVisible && s.isPlaying && s.tiles != [] ==>
      && r.currentIndex == (s.currentIndex + 1) % |s.tiles|
      && r.zoom == Zoom(true, Some(s.tiles[s.currentIndex]), Entering)
      && r.timers == s.timers + [Timer(s.nextId, 50, Settle(s.tiles[s.currentIndex]))]
  {
    if !s.isPaused || !s.env.isVisible then s else NextTile(s.(isPaused := false))
  }

  /** `stopAnimation`: neither playing nor paused, remembered timer cancelled, zoom reset. */
  function Stop(s: State): (r: State)
    ensures !r.isPlaying && !r.isPaused && r.timeoutId == None
    ensures !r.zoom.active && r.zoom.stage == Idle && r.zoom.content == s.zoom.content
    ensures r.tiles == s.tiles && r.env == s.env && r.currentIndex == s.currentIndex && r.nextId == s.nextId
    ensures s.timeoutId.None? ==> r.timers == s.timers
    ensures s.timeoutId.Some? ==> forall t :: t in r.timers <==> t in s.timers && t.id != s.timeoutId.value
  {
    ResetZoom(ClearTimeout(s.(isPlaying := false, isPaused := false)))
  }

  function EnterDuration(s: State, settings: Settings): int
  {
    if s.env.prefersReducedMotion then 300 else settings.zoomInDuration
  }

  function LeaveDuration(s: State, settings: Settings): int
  {
    if s.env.prefersReducedMotion then 300 else settings.zoomOutDuration
  }

  /** The 50 ms timer: grow to full size and hold for `displayDuration` (remembered). */
  function Settled(s: State, settings: Settings, tile: Tile): (r: State)
    ensures SameSetup(r, s) && r.currentIndex == s.currentIndex
    ensures s.isPaused ==> r == s
    ensures !s.isPaused ==>
      && r.zoom == s.zoom.(stage := Full(EnterDuration(s, settings)))
      && r.timers == s.timers + [Timer(s.nextId, settings.displayDuration, Hold(tile))]
      && r.timeoutId == Some(s.nextId) && r.nextId == s.nextId + 1
  {
    if s.isPaused then s
    else
      var full := s.(zoom := s.zoom.(stage := Full(EnterDuration(s, settings))));
      Schedule(full, settings.displayDuration, Hold(tile)).(timeoutId := Some(s.nextId))
  }

  /** `zoomOut`: fade out, and reset when the zoom-out transition ends (not remembered). */
  function ZoomOut(s: State, settings: Settings): (r: State)
    ensures SameSetup(r, s) && r.currentIndex == s.currentIndex
    ensures s.isPaused ==> r == s
    ensures !s.isPaused ==>
      && r.zoom == s.zoom.(stage := Leaving(LeaveDuration(s, settings)))
      && r.timers == s.timers + [Timer(s.nextId, LeaveDuration(s, settings), ZoomOutEnd)]
      && r.timeoutId == s.timeoutId && r.nextId == s.nextId + 1
  {
    if s.isPaused then s
    else
      var d := LeaveDuration(s, settings);
      Schedule(s.(zoom := s.zoom.(stage := Leaving(d))), d, ZoomOutEnd)
  }

  /** The zoom-out timer: reset, and 100 ms later the next tile (remembered). */
  function ZoomedOut(s: State): (r: State)
    ensures SameSetup(r, s) && r.currentIndex == s.currentIndex
    ensures !r.zoom.active && r.zoom.stage == Idle && r.isPaused == s.isPaused
    ensures |r.timers| > |s.timers| <==> !s.isPaused && s.isPlaying
    ensures !s.isPaused && s.isPlaying ==>
      r.timers == s.timers + [Timer(s.nextId, 100, Gap)] && r.timeoutId == Some(s.nextId)
    ensures !(!s.isPaused && s.isPlaying) ==> r.timers == s.timers && r.timeoutId == s.timeoutId
  {
    var r := ResetZoom(s);
    if !r.isPaused && r.isPlaying then Schedule(r, 100, Gap).(timeoutId := Some(r.nextId)) else r
  }

  /** Pending timer `k` comes due: it is no longer pending, and its callback runs. */
  function Fire(s: State, settings: Settings, k: nat): (r: State)
    requires k < |s.timers| && Indexed(s)
    ensures Indexed(r) && SameSetup(r, s)
    ensures s.isPaused && !s.timers[k].callback.ZoomOutEnd? ==> r == s.(timers := RemoveAt(s.timers, k))
  {
    var rest := s.(timers := RemoveAt(s.timers, k));
    match s.timers[k].callback
    case Settle(tile) => Settled(rest, settings, tile)
    case Hold(tile) => if rest.isPaused then rest else ZoomOut(rest, settings)
    case ZoomOutEnd => ZoomedOut(rest)
    case Gap => NextTile(rest)
  }

  /** The overlay's own `start`: it ignores the call when running or made under reduced motion. */
  function Started(h: OverlayHandle): OverlayHandle
  {
    if h.running || h.reducedMotion then h else h.(running := true)
  }

  /** `startOverlay`: only when there is an overlay, motion is welcome and the hero visible. */
  function StartOverlay(s: State): State
  {
    if s.env.overlay.Some? && !s.env.prefersReducedMotion && s.env.isVisible
    then s.(env := s.env.(overlay := Some(Started(s.env.overlay.value)))) else s
  }

  function StopOverlay(s: State): State
  {
    if s.env.overlay.Some? then s.(env := s.env.(overlay := Some(s.env.overlay.value.(running := false)))) else s
  }

  /** `recalculateLayout`: collect the tiles again (the index is kept). */
  function Recalculate(s: State, ctx: Context): State
  {
    s.(tiles := CollectTiles(ctx.page, ctx.settings))
  }

  // ---------------------------------------------------------------- events

  /** The intersection observer's callback for one entry. */
  function OnIntersection(s: State, visible: bool): (r: State)
    requires Indexed(s)
    ensures Indexed(r)
  {
    if !s.env.observing then s
    else
      var seen := s.(env := s.env.(isVisible := visible));
      if visible && !seen.isPlaying then StartOverlay(Resume(seen))
      else if !visible && seen.isPlaying then StopOverlay(Pause(seen))
      else seen
  }

  /** The document's `visibilitychange` listener. */
  function OnVisibilityChange(s: State, ctx: Context, hidden: bool): State
    requires Valid(s, ctx)
  {
    if !s.env.listening then s
    else if hidden then StopOverlay(Pause(s))
    else if s.env.isVisible then StartOverlay(Resume(Recalculate(s, ctx)))
    else s
  }

  /** The reduced-motion media query's `change` listener (with `adjustForReducedMotion`). */
  function OnMotionChange(s: State, matches: bool): State
  {
    if !s.env.listening then s
    else
      var s1 := s.(env := s.env.(prefersReducedMotion := matches));
      if matches then StopOverlay(s1.(env := s1.env.(reducedStyles := true)))
      else if s1.env.isVisible then StartOverlay(s1)
      else s1
  }

  /** The resize observer's callback. */
  function OnResize(s: State, ctx: Context): State
  {
    if !s.env.resizing then s
    else Recalculate(if s.zoom.active then ResetZoom(s) else s, ctx)
  }

  /** The overlay module finished loading: the instance is made and started if it may run. */
  function OnOverlayLoaded(s: State, ctx: Context): State
  {
    if !ctx.page.canvasOverlay || !s.env.listening || s.env.overlay.Some? then s
    else
      var h := OverlayHandle(false, s.env.prefersReducedMotion, false);
      s.(env := s.env.(overlay := Some(if s.env.isVisible && !s.env.prefersReducedMotion then Started(h) else h)))
  }

  /**
   * `destroy`. Without the zoom layers `resetZoom` throws on the missing content, after
   * the flags are cleared. The document listeners and the resize observer stay.
   */
  function Destroy(s: State, ctx: Context): State
  {
    if !ctx.page.zoomLayers then s.(isPlaying := false, isPaused := false)
    else
      var r := StopOverlay(Stop(s));
      var h := if r.env.overlay.Some? then Some(r.env.overlay.value.(destroyed := true)) else None;
      r.(env := r.env.(overlay := h, observing := false))
  }

  /**
   * The constructor and `init`: settings parsed, reduced motion read; if the zoom layers
   * exist, tiles collected, observers and listeners registered, and the sequence started
   * when there is a tile.
   */
  function Initial(ctx: Context, reducedMotion: bool): State
  {
    if !ctx.page.zoomLayers then Blank(reducedMotion)
    else
      var ready := Ready(ctx, reducedMotion);
      if |ready.tiles| > 0 then StartAnimation(ready) else ready
  }

  /** The fields as the constructor sets them before `init`. */
  function Blank(reducedMotion: bool): State
  {
    State([], 0, false, false, None, Zoom(false, None, Idle), [], 1,
      Env(false, reducedMotion, false, None, false, false, false))
  }

  /** After `init` has collected the tiles and registered the observers and listeners. */
  function Ready(ctx: Context, reducedMotion: bool): State
  {
    var blank := Blank(reducedMotion);
    blank.(tiles := CollectTiles(ctx.page, ctx.settings),
      env := blank.env.(observing := true, listening := true, resizing := ctx.resizeObserver))
  }

  datatype Event =
    | Intersect(visible: bool)
    | TabChange(hidden: bool)
    | MotionChange(matches: bool)
    | Resized
    | Timeout(k: nat)
    | OverlayLoaded
    | Destroyed

  function Step(s: State, ctx: Context, e: Event): State
    requires Valid(s, ctx)
  {
    match e
    case Intersect(visible) => OnIntersection(s, visible)
    case TabChange(hidden) => OnVisibilityChange(s, ctx, hidden)
    case MotionChange(matches) => OnMotionChange(s, matches)
    case Resized => OnResize(s, ctx)
    case Timeout(k) => if k < |s.timers| then Fire(s, ctx.settings, k) else s
    case OverlayLoaded => OnOverlayLoaded(s, ctx)
    case Destroyed => Destroy(s, ctx)
  }

  // ------------------------------------------------------------ the invariant

  lemma ScheduleNumbered(s: State, delay: int, callback: Callback)
    requires Numbered(s)
    ensures Numbered(Schedule(s, delay, callback))
  {
  }

  lemma TrackNumbered(s: State, delay: int, callback: Callback)
    requires Numbered(s) && Tracked(callback)
    ensures Numbered(Schedule(s, delay, callback).(timeoutId := Some(s.nextId)))
  {
  }

  lemma ClearNumbered(s: State)
    requires Numbered(s)
    ensures Numbered(ClearTimeout(s))
  {
  }

  lemma RemoveNumbered(s: State, k: nat)
    requires Numbered(s) && k < |s.timers|
    ensures Numbered(s.(timers := RemoveAt(s.timers, k)))
  {
  }

  lemma NextTileValid(s: State, ctx: Context)
    requires Valid(s, ctx)
    ensures Valid(NextTile(s), ctx)
  {
    if !(s.isPaused || !s.isPlaying || |s.tiles| == 0) {
      ScheduleNumbered(s.(zoom := Zoom(true, Some(s.tiles[s.currentIndex]), Entering)), 50,
        Settle(s.tiles[s.currentIndex]));
    }
  }

  lemma SettledValid(s: State, ctx: Context, tile: Tile)
    requires Valid(s, ctx)
    ensures Valid(Settled(s, ctx.settings, tile), ctx)
  {
    if !s.isPaused {
      var full := s.(zoom := s.zoom.(stage := Full(EnterDuration(s, ctx.settings))));
      TrackNumbered(full, ctx.settings.displayDuration, Hold(tile));
    }
  }

  lemma ZoomOutValid(s: State, ctx: Context)
    requires Valid(s, ctx)
    ensures Valid(ZoomOut(s, ctx.settings), ctx)
  {
    if !s.isPaused {
      var d := LeaveDuration(s, ctx.settings);
      ScheduleNumbered(s.(zoom := s.zoom.(stage := Leaving(d))), d, ZoomOutEnd);
    }
  }

  lemma ZoomedOutValid(s: State, ctx: Context)
    requires Valid(s, ctx)
    ensures Valid(ZoomedOut(s), ctx)
  {
    var reset := ResetZoom(s);
    if !reset.isPaused && reset.isPlaying {
      TrackNumbered(reset, 100, Gap);
    }
  }

  lemma FireValid(s: State, ctx: Context, k: nat)
    requires Valid(s, ctx) && k < |s.timers|
    ensures Valid(Fire(s, ctx.settings, k), ctx)
  {
    var rest := s.(timers := RemoveAt(s.timers, k));
    RemoveNumbered(s, k);
    assert Valid(rest, ctx);
    match s.timers[k].callback
    case Settle(tile) =>
      SettledValid(rest, ctx, tile);
    case Hold(tile) =>
      ZoomOutValid(rest, ctx);
    case ZoomOutEnd =>
      ZoomedOutValid(rest, ctx);
    case Gap =>
      NextTileValid(rest, ctx);
  }

  lemma PauseValid(s: State, ctx: Context)
    requires Valid(s, ctx)
    ensures Valid(Pause(s), ctx)
  {
    ClearNumbered(s.(isPaused := true));
  }

  lemma ResumeValid(s: State, ctx: Context)
    requires Valid(s, ctx)
    ensures Valid(Resume(s), ctx)
  {
    if s.isPaused && s.env.isVisible {
      NextTileValid(s.(isPaused := false), ctx);
    }
  }

  lemma StopValid(s: State, ctx: Context)
    requires Valid(s, ctx)
    ensures Valid(Stop(s), ctx)
  {
    ClearNumbered(s.(isPlaying := false, isPaused := false));
  }

  lemma StartOverlayValid(s: State, ctx: Context)
    requires Valid(s, ctx)
    ensures Valid(StartOverlay(s), ctx)
  {
  }

  lemma StopOverlayValid(s: State, ctx: Context)
    requires Valid(s, ctx)
    ensures Valid(StopOverlay(s), ctx)
  {
  }

  lemma IntersectionValid(s: State, ctx: Context, visible: bool)
    requires Valid(s, ctx)
    ensures Valid(OnIntersection(s, visible), ctx)
  {
    if s.env.observing {
      var seen := s.(env := s.env.(isVisible := visible));
      if visible && !seen.isPlaying {
        ResumeValid(seen, ctx);
        StartOverlayValid(Resume(seen), ctx);
      } else if !visible && seen.isPlaying {
        PauseValid(seen, ctx);
        StopOverlayValid(Pause(seen), ctx);
      }
    }
  }

  lemma VisibilityValid(s: State, ctx: Context, hidden: bool)
    requires Valid(s, ctx)
    ensures Valid(OnVisibilityChange(s, ctx, hidden), ctx)
  {
    if s.env.listening {
      if hidden {
        PauseValid(s, ctx);
        StopOverlayValid(Pause(s), ctx);
      } else if s.env.isVisible {
        assert Recalculate(s, ctx) == s;
        ResumeValid(s, ctx);
        StartOverlayValid(Resume(s), ctx);
      }
    }
  }

  lemma MotionValid(s: State, ctx: Context, matches: bool)
    requires Valid(s, ctx)
    ensures Valid(OnMotionChange(s, matches), ctx)
  {
  }

  lemma ResizeValid(s: State, ctx: Context)
    requires Valid(s, ctx)
    ensures Valid(OnResize(s, ctx), ctx)
  {
  }

  lemma LoadedValid(s: State, ctx: Context)
    requires Valid(s, ctx)
    ensures Valid(OnOverlayLoaded(s, ctx), ctx)
  {
  }

  lemma DestroyValid(s: State, ctx: Context)
    requires Valid(s, ctx)
    ensures Valid(Destroy(s, ctx), ctx)
  {
    if ctx.page.zoomLayers {
      StopValid(s, ctx);
      StopOverlayValid(Stop(s), ctx);
    }
  }

  /** Every event keeps the invariant. */
  lemma StepValid(s: State, ctx: Context, e: Event)
    requires Valid(s, ctx)
    ensures Valid(Step(s, ctx, e), ctx)
  {
    match e
    case Intersect(visible) => IntersectionValid(s, ctx, visible);
    case TabChange(hidden) => VisibilityValid(s, ctx, hidden);
    case MotionChange(matches) => MotionValid(s, ctx, matches);
    case Resized => ResizeValid(s, ctx);
    case Timeout(k) => if k < |s.timers| { FireValid(s, ctx, k); }
    case OverlayLoaded => LoadedValid(s, ctx);
    case Destroyed => DestroyValid(s, ctx);
  }

  /** The constructor establishes the invariant. */
  lemma InitialValid(ctx: Context, reducedMotion: bool)
    ensures Valid(Initial(ctx, reducedMotion), ctx)
  {
    if ctx.page.zoomLayers {
      var ready := Ready(ctx, reducedMotion);
      assert Valid(ready, ctx);
      if |ready.tiles| > 0 {
        NextTileValid(ready.(isPlaying := true, isPaused := false, currentIndex := 0), ctx);
      }
    }
  }

  // --------------------------------------------------------------- behaviour

  /**
   * Without the zoom layers nothing is set up; with them and at least one tile, the
   * sequence starts at once on the first tile, whether or not the hero is visible yet.
   */
  lemma InitialState(ctx: Context, reducedMotion: bool)
    ensures var s := Initial(ctx, reducedMotion);
      !ctx.page.zoomLayers ==>
        s.tiles == [] && !s.isPlaying && s.timers == [] && !s.env.observing && !s.env.listening && !s.env.resizing
    ensures var s := Initial(ctx, reducedMotion); var tiles := CollectTiles(ctx.page, ctx.settings);
      ctx.page.zoomLayers && tiles != [] ==>
        && s.tiles == tiles && s.isPlaying && !s.isPaused && !s.env.isVisible
        && s.currentIndex == 1 % |tiles| && s.zoom == Zoom(true, Some(tiles[0]), Entering)
        && s.timers == [Timer(1, 50, Settle(tiles[0]))] && s.timeoutId == None
  {
    if ctx.page.zoomLayers {
      var ready := Ready(ctx, reducedMotion);
      var tiles := ready.tiles;
      if tiles != [] {
        var playing := ready.(isPlaying := true, isPaused := false, currentIndex := 0);
        assert Initial(ctx, reducedMotion) == NextTile(playing);
        assert playing.tiles == tiles && playing.nextId == 1;
      }
    }
  }

  /** The first pending timer, fired. */
  function FireFirst(s: State, settings: Settings): (r: State)
    requires Indexed(s)
    ensures Indexed(r)
  {
    if s.timers == [] then s else Fire(s, settings, 0)
  }

  /** The settle timer: the clone grows to full size and is held for `displayDuration`. */
  lemma SettleStep(s: State, settings: Settings, tile: Tile)
    requires Indexed(s) && !s.isPaused && |s.timers| == 1 && s.timers[0].callback == Settle(tile)
    ensures var r := FireFirst(s, settings);
      && r.zoom == s.zoom.(stage := Full(EnterDuration(s, settings)))
      && r.timers == [Timer(s.nextId, settings.displayDuration, Hold(tile))]
      && r.timeoutId == Some(s.nextId) && r.nextId == s.nextId + 1
      && r.currentIndex == s.currentIndex && r.isPlaying == s.isPlaying && !r.isPaused
  {
  }

  /** The hold timer: the clone fades out over the zoom-out duration. */
  lemma HoldStep(s: State, settings: Settings, tile: Tile)
    requires Indexed(s) && !s.isPaused && |s.timers| == 1 && s.timers[0].callback == Hold(tile)
    ensures var r := FireFirst(s, settings);
      && r.zoom == s.zoom.(stage := Leaving(LeaveDuration(s, settings)))
      && r.timers == [Timer(s.nextId, LeaveDuration(s, settings), ZoomOutEnd)]
      && r.timeoutId == s.timeoutId && r.nextId == s.nextId + 1
      && r.currentIndex == s.currentIndex && r.isPlaying == s.isPlaying && !r.isPaused
  {
  }

  /** The zoom-out timer: the zoom content is reset and, while playing, the gap begins. */
  lemma ZoomOutEndStep(s: State, settings: Settings)
    requires Indexed(s) && !s.isPaused && s.isPlaying
    requires |s.timers| == 1 && s.timers[0].callback == ZoomOutEnd
    ensures var r := FireFirst(s, settings);
      && r.zoom == s.zoom.(active := false, stage := Idle)
      && r.timers == [Timer(s.nextId, 100, Gap)]
      && r.timeoutId == Some(s.nextId) && r.nextId == s.nextId + 1
      && r.currentIndex == s.currentIndex && r.isPlaying && !r.isPaused
  {
  }

  /** The gap timer: the next tile is zoomed to. */
  lemma GapStep(s: State, settings: Settings)
    requires Indexed(s) && !s.isPaused && s.isPlaying && s.tiles != []
    requires |s.timers| == 1 && s.timers[0].callback == Gap
    ensures var r := FireFirst(s, settings);
      && r.zoom == Zoom(true, Some(s.tiles[s.currentIndex]), Entering)
      && r.timers == [Timer(s.nextId, 50, Settle(s.tiles[s.currentIndex]))]
      && r.currentIndex == (s.currentIndex + 1) % |s.tiles| && r.nextId == s.nextId + 1
      && r.isPlaying && !r.isPaused
  {
  }

  /**
   * One undisturbed cycle: from a tile settling, four timers later the next tile in
   * order is settling, and the index has moved on by one, wrapping at the end.
   */
  lemma {:induction false} OneCycle(s: State, settings: Settings, tile: Tile)
    requires Indexed(s) && !s.isPaused && s.isPlaying && s.tiles != []
    requires |s.timers| == 1 && s.timers[0].callback == Settle(tile)
    ensures var r := FireFirst(FireFirst(FireFirst(FireFirst(s, settings), settings), settings), settings);
      && r.zoom == Zoom(true, Some(s.tiles[s.currentIndex]), Entering)
      && r.timers == [Timer(s.nextId + 3, 50, Settle(s.tiles[s.currentIndex]))]
      && r.currentIndex == (s.currentIndex + 1) % |s.tiles| && r.nextId == s.nextId + 4
      && r.isPlaying && !r.isPaused && r.tiles == s.tiles
  {
    var s1 := FireFirst(s, settings);
    SettleStep(s, settings, tile);
    var s2 := FireFirst(s1, settings);
    HoldStep(s1, settings, tile);
    assert LeaveDuration(s1, settings) == LeaveDuration(s, settings);
    var s3 := FireFirst(s2, settings);
    ZoomOutEndStep(s2, settings);
    GapStep(s3, settings);
  }

  /**
   * The viewport observer can pause the sequence but never restarts it: it never adds a
   * timer, and a playing showcase that has been paused stays paused. (Its resume branch
   * runs only when nothing is playing, where `nextTile` does nothing.)
   */
  lemma IntersectionNeverSchedules(s: State, visible: bool)
    requires Indexed(s)
    ensures var r := OnIntersection(s, visible);
      && (forall t :: t in r.timers ==> t in s.timers)
      && r.isPlaying == s.isPlaying && r.currentIndex == s.currentIndex
      && (s.isPlaying && s.isPaused ==> r.isPaused)
      && (s.env.observing && s.isPlaying && !visible ==> r.isPaused && r.timeoutId == None)
  {
  }

  /** The showcase after the viewport observer reports each of `visible` in turn. */
  function Scroll(s: State, visible: seq<bool>): (r: State)
    requires Indexed(s)
    ensures Indexed(r)
    decreases |visible|
  {
    if visible == [] then s else Scroll(OnIntersection(s, visible[0]), visible[1..])
  }

  /** Once scrolled out of view, no amount of scrolling back resumes the sequence. */
  lemma {:induction false} ScrollNeverResumes(s: State, visible: seq<bool>)
    requires Indexed(s) && s.isPlaying && s.isPaused
    ensures var r := Scroll(s, visible);
      r.isPlaying && r.isPaused && r.currentIndex == s.currentIndex
      && forall t :: t in r.timers ==> t in s.timers
    decreases |visible|
  {
    if visible != [] {
      var next := OnIntersection(s, visible[0]);
      IntersectionNeverSchedules(s, visible[0]);
      ScrollNeverResumes(next, visible[1..]);
    }
  }

  /**
   * Coming back to the tab does resume: a paused, playing, in-view showcase with tiles
   * zooms to its current tile again.
   */
  lemma TabReturnResumes(s: State, ctx: Context)
    requires Valid(s, ctx) && s.env.listening && s.isPlaying && s.isPaused && s.env.isVisible && s.tiles != []
    ensures var r := OnVisibilityChange(s, ctx, false);
      && !r.isPaused && r.isPlaying
      && r.zoom == Zoom(true, Some(s.tiles[s.currentIndex]), Entering)
      && Timer(s.nextId, 50, Settle(s.tiles[s.currentIndex])) in r.timers
      && r.currentIndex == (s.currentIndex + 1) % |s.tiles|
  {
    assert Recalculate(s, ctx) == s;
  }

  /**
   * Pausing cancels only the remembered timer: a pending settle or zoom-out timer stays
   * pending.
   */
  lemma PauseKeepsUntracked(s: State)
    requires Numbered(s)
    ensures var r := Pause(s);
      && r.isPaused && r.timeoutId == None
      && (forall t :: t in s.timers && !Tracked(t.callback) ==> t in r.timers)
      && (s.timeoutId.Some? ==> forall t :: t in r.timers ==> t.id != s.timeoutId.value)
  {
  }

  /**
   * Hiding and showing the tab while a settle or zoom-out timer is pending forks the
   * sequence: that timer is still pending next to the settle timer of the resumed tile,
   * so two zoom cycles run side by side from then on.
   */
  lemma HideShowForks(s: State, ctx: Context, pending: Timer)
    requires Valid(s, ctx) && s.env.listening && s.isPlaying && !s.isPaused && s.env.isVisible && s.tiles != []
    requires pending in s.timers && !Tracked(pending.callback)
    ensures var hidden := OnVisibilityChange(s, ctx, true);
      Valid(hidden, ctx) &&
      var r := OnVisibilityChange(hidden, ctx, false);
      && pending in r.timers
      && Timer(s.nextId, 50, Settle(s.tiles[s.currentIndex])) in r.timers
      && pending.id != s.nextId && !r.isPaused
  {
    VisibilityValid(s, ctx, true);
    PauseKeepsUntracked(s);
    var hidden := OnVisibilityChange(s, ctx, true);
    assert Recalculate(hidden, ctx) == hidden;
  }

  /**
   * Stopping leaves a pending settle timer pending, and when it fires the stopped
   * showcase still grows that tile to full size and arms a hold timer.
   */
  lemma StaleSettleAfterStop(s: State, ctx: Context, pending: Timer)
    requires Valid(s, ctx) && pending in s.timers && pending.callback.Settle?
    ensures var stopped := Stop(s);
      && pending in stopped.timers && !stopped.isPlaying && stopped.timeoutId == None
      && var r := Fire(stopped, ctx.settings, IndexOf(stopped.timers, pending));
      && !r.isPlaying
      && r.zoom.stage == Full(EnterDuration(s, ctx.settings))
      && r.timeoutId == Some(stopped.nextId)
      && Timer(stopped.nextId, ctx.settings.displayDuration, Hold(pending.callback.tile)) in r.timers
  {
    PauseKeepsUntracked(s);
  }

  /** The position of a pending timer. */
  function IndexOf(timers: seq<Timer>, t: Timer): (k: nat)
    requires t in timers
    ensures k < |timers| && timers[k] == t
  {
    if timers[0] == t then 0 else 1 + IndexOf(timers[1..], t)
  }

  /** Only `destroy` changes whether the sequence is playing once it is set up. */
  lemma PlayingOnlyStopsOnDestroy(s: State, ctx: Context, e: Event)
    requires Valid(s, ctx)
    ensures !e.Destroyed? ==> Step(s, ctx, e).isPlaying == s.isPlaying
    ensures e.Destroyed? ==> !Step(s, ctx, e).isPlaying
  {
    match e
    case Intersect(visible) =>
    case TabChange(hidden) =>
      assert s.env.listening ==> Recalculate(s, ctx) == s;
    case MotionChange(matches) =>
    case Resized =>
    case Timeout(k) =>
    case OverlayLoaded =>
    case Destroyed =>
  }

  /** The reduced-motion custom properties, once written, are never taken back. */
  lemma ReducedStylesSticky(s: State, ctx: Context, e: Event)
    requires Valid(s, ctx)
    ensures s.env.reducedStyles ==> Step(s, ctx, e).env.reducedStyles
    ensures e == MotionChange(true) && s.env.listening ==> Step(s, ctx, e).env.reducedStyles
  {
    match e
    case Intersect(visible) =>
    case TabChange(hidden) =>
      assert s.env.listening ==> Recalculate(s, ctx) == s;
    case MotionChange(matches) =>
    case Resized =>
    case Timeout(k) =>
    case OverlayLoaded =>
    case Destroyed =>
  }

  /**
   * An overlay made while reduced motion was asked for never runs, even after the user
   * stops asking for it: the overlay keeps the flag it was created with.
   */
  lemma OverlaySnapshotSticks(s: State, ctx: Context, e: Event)
    requires Valid(s, ctx) && Frozen(s)
    ensures Frozen(Step(s, ctx, e))
  {
    match e
    case Intersect(visible) =>
      if s.env.observing {
        var seen := s.(env := s.env.(isVisible := visible));
        FrozenOverlay(Resume(seen));
        FrozenOverlay(Pause(seen));
      }
    case TabChange(hidden) =>
      if s.env.listening {
        assert Recalculate(s, ctx) == s;
        FrozenOverlay(Resume(s));
        FrozenOverlay(Pause(s));
      }
    case MotionChange(matches) =>
      var s1 := s.(env := s.env.(prefersReducedMotion := matches));
      FrozenOverlay(s1);
      FrozenOverlay(s1.(env := s1.env.(reducedStyles := true)));
    case Resized =>
    case Timeout(k) =>
    case OverlayLoaded =>
    case Destroyed =>
      FrozenOverlay(Stop(s));
  }

  /** The overlay exists, was made under reduced motion, and is not running. */
  predicate Frozen(s: State)
  {
    s.env.overlay.Some? && s.env.overlay.value.reducedMotion && !s.env.overlay.value.running
  }

  /** Neither starting nor stopping the overlay thaws a frozen one. */
  lemma FrozenOverlay(s: State)
    requires Frozen(s)
    ensures Frozen(StartOverlay(s)) && Frozen(StopOverlay(s))
  {
  }

  /**
   * `destroy` stops and destroys the overlay, but the tab listener stays registered:
   * coming back to the tab starts the destroyed overlay again.
   */
  lemma DestroyedOverlayRestarts(s: State, ctx: Context)
    requires Valid(s, ctx) && ctx.page.zoomLayers && s.env.listening && s.env.isVisible
    requires s.env.overlay.Some? && !s.env.overlay.value.reducedMotion && !s.env.prefersReducedMotion
    ensures var d := Destroy(s, ctx);
      Valid(d, ctx) && d.env.overlay.value.destroyed && !d.env.overlay.value.running &&
      var r := OnVisibilityChange(d, ctx, false);
      r.env.overlay.value.destroyed && r.env.overlay.value.running
  {
    DestroyValid(s, ctx);
    var d := Destroy(s, ctx);
    assert Recalculate(d, ctx) == d;
  }
}
