/**
 * Server-side layout of includes/Render.php (class NSMHS_Render): the empty-media guard
 * of `render_showcase`, the tile cap of `render_media_tiles`, the aspect-ratio and CSS
 * custom-property strings of `generate_css_vars`, and `get_media_order`.
 *
 * PHP's conversion of a float to a string is an opaque function `fmt`.
 */
module Render {
  import opened Common
  import opened Text
  import opened Raster
  import Config

  /** `wp_parse_args` gives stored settings without a media list the default empty one. */
  function StoredMedia(s: Config.Settings): seq<Config.MediaItem>
  {
    if s.media.Some? then s.media.value else []
  }

  // -------------------------------------------------------------- the tiles

  /** The largest cell count of the three device grids. */
  function MaxCells(s: Config.Settings): (r: int)
    ensures r >= Config.GridCells(s.grids.pc) && r >= Config.GridCells(s.grids.tablet)
    ensures r >= Config.GridCells(s.grids.phone)
    ensures r == Config.GridCells(s.grids.pc) || r == Config.GridCells(s.grids.tablet)
      || r == Config.GridCells(s.grids.phone)
  {
    Max(Config.GridCells(s.grids.pc), Max(Config.GridCells(s.grids.tablet), Config.GridCells(s.grids.phone)))
  }

  /** PHP `array_slice($a, 0, $len)`: a negative length stops that far from the end. */
  function SliceFront<T>(a: seq<T>, len: int): (r: seq<T>)
    ensures r <= a
    ensures len >= 0 ==> |r| == Min(len, |a|)
    ensures len < 0 ==> |r| == Max(0, |a| + len)
  {
    if len >= 0 then a[..Min(len, |a|)] else a[..Max(0, |a| + len)]
  }

  /** One tile `render_media_tile` writes; a poster appears only on a video with one. */
  datatype TileMarkup = TileMarkup(index: nat, kind: MediaKind, src: string, poster: Option<string>)

  function TileOf(item: Config.MediaItem, index: nat): (t: TileMarkup)
    ensures t.index == index && t.kind == item.kind && t.src == item.src
    ensures t.poster.Some? <==> item.kind == Video && item.poster.Some? && !Config.EmptyString(item.poster.value)
  {
    var poster :=
      if item.kind == Video && item.poster.Some? && !Config.EmptyString(item.poster.value)
      then item.poster else None;
    TileMarkup(index, item.kind, item.src, poster)
  }

  /** `render_media_tiles`: the first `MaxCells` media items, numbered from 0. */
  function RenderedTiles(s: Config.Settings): (r: seq<TileMarkup>)
    ensures |r| == |SliceFront(StoredMedia(s), MaxCells(s))|
    ensures forall k :: 0 <= k < |r| ==> r[k] == TileOf(StoredMedia(s)[k], k)
  {
    var items := SliceFront(StoredMedia(s), MaxCells(s));
    seq(|items|, k requires 0 <= k < |items| => TileOf(items[k], k))
  }

  /** With allowed grids, the cap lies between 6 (3x2) and 20 (5x4). */
  lemma MaxCellsRange(s: Config.Settings)
    requires s.grids.pc in Config.AllowedGrids && s.grids.tablet in Config.AllowedGrids
    requires s.grids.phone in Config.AllowedGrids
    ensures 6 <= MaxCells(s) <= 20
  {
    var a, b, c := Config.GridCells(s.grids.pc), Config.GridCells(s.grids.tablet), Config.GridCells(s.grids.phone);
    assert 6 <= a <= 20 by { Config.AllowedGridCells(s.grids.pc); }
    assert 6 <= b <= 20 by { Config.AllowedGridCells(s.grids.tablet); }
    assert 6 <= c <= 20 by { Config.AllowedGridCells(s.grids.phone); }
  }

  /** With allowed grids, between 6 and 20 tiles are rendered, taken from the front. */
  lemma RenderedTileCount(s: Config.Settings)
    requires s.grids.pc in Config.AllowedGrids && s.grids.tablet in Config.AllowedGrids
    requires s.grids.phone in Config.AllowedGrids
    ensures 6 <= MaxCells(s) <= 20
    ensures |RenderedTiles(s)| == Min(|StoredMedia(s)|, MaxCells(s))
    ensures forall k :: 0 <= k < |RenderedTiles(s)| ==>
      RenderedTiles(s)[k].src == StoredMedia(s)[k].src && RenderedTiles(s)[k].kind == StoredMedia(s)[k].kind
  {
    MaxCellsRange(s);
    var items := SliceFront(StoredMedia(s), MaxCells(s));
    assert |items| == Min(|StoredMedia(s)|, MaxCells(s));
  }

  /** The default grids allow at most 15 tiles (the 5x3 desktop grid). */
  lemma DefaultMaxCells()
    ensures MaxCells(Config.DefaultSettings()) == 15
  {
    Config.AllowedGridCells("5x3");
    Config.AllowedGridCells("4x2");
    Config.AllowedGridCells("3x2");
  }

  // ---------------------------------------------------------- the CSS string

  /** One custom property: `name: value; `. */
  datatype Decl = Decl(name: string, value: string)

  function Declaration(d: Decl): string
  {
    d.name + ": " + d.value + "; "
  }

  /** The declarations concatenated in table order. */
  function Declarations(t: seq<Decl>): string
  {
    if t == [] then "" else Declarations(t[..|t| - 1]) + Declaration(t[|t| - 1])
  }

  /** `(cols * 16) . '/' . (rows * 9)`: the grid's aspect ratio with 16:9 tiles. */
  function AspectRatio(g: Config.Grid): string
  {
    IntToString(g.cols * 16) + "/" + IntToString(g.rows * 9)
  }

  /** The three timing durations with their `ms` suffix, then the easing. */
  function TimingDecls(t: Config.Timing): (d: seq<Decl>)
    ensures |d| == 4 && d[0].name == "--nsmhs-display-duration"
  {
    [
      Decl("--nsmhs-display-duration", IntToString(t.displayDuration) + "ms"),
      Decl("--nsmhs-zoom-in-duration", IntToString(t.zoomInDuration) + "ms"),
      Decl("--nsmhs-zoom-out-duration", IntToString(t.zoomOutDuration) + "ms"),
      Decl("--nsmhs-easing", t.easing)
    ]
  }

  /** Opacity, blur with its `px` suffix, shadow strength and the overlay's opacity and blend. */
  function EffectDecls(s: Config.Settings, fmt: real -> string): (d: seq<Decl>)
    ensures |d| == 5
  {
    [
      Decl("--nsmhs-opacity", fmt(s.effects.opacity)),
      Decl("--nsmhs-blur", IntToString(s.effects.blurPx) + "px"),
      Decl("--nsmhs-shadow-strength", fmt(s.mid.shadowStrength)),
      Decl("--overlay-opacity", fmt(s.mid.overlay.opacity)),
      Decl("--overlay-blend", s.mid.overlay.blendMode)
    ]
  }

  /** Columns, rows and aspect ratio of one device's grid. */
  function GridDecls(device: string, g: Config.Grid): (d: seq<Decl>)
    ensures |d| == 3
  {
    [
      Decl("--nsmhs-" + device + "-cols", IntToString(g.cols)),
      Decl("--nsmhs-" + device + "-rows", IntToString(g.rows)),
      Decl("--nsmhs-" + device + "-aspect-ratio", AspectRatio(g))
    ]
  }

  /** The grid declarations of the three devices, desktop first. */
  function GridTable(grids: Config.Grids): (d: seq<Decl>)
    ensures |d| == 9
  {
    GridDecls("pc", Config.ParseGrid(grids.pc))
      + GridDecls("tablet", Config.ParseGrid(grids.tablet))
      + GridDecls("phone", Config.ParseGrid(grids.phone))
  }

  /** The first two parts of a three-part concatenation are its leading slices. */
  lemma ConcatParts<T>(a: seq<T>, b: seq<T>, c: seq<T>)
    ensures (a + b + c)[..|a|] == a && (a + b + c)[|a|..|a| + |b|] == b
  {
    var t := a + b + c;
    assert forall k | 0 <= k < |a| :: t[k] == a[k];
    assert forall k | 0 <= k < |b| :: t[|a| + k] == b[k];
  }

  /** The table of custom properties `generate_css_vars` writes, in its order. */
  function CssTable(s: Config.Settings, fmt: real -> string): (t: seq<Decl>)
    ensures |t| == 18 && t[0].name == "--nsmhs-display-duration"
    ensures t[..4] == TimingDecls(s.timing) && t[4..9] == EffectDecls(s, fmt)
  {
    var timing, effects, grids := TimingDecls(s.timing), EffectDecls(s, fmt), GridTable(s.grids);
    ConcatParts(timing, effects, grids);
    timing + effects + grids
  }

  /** The CSS string of `generate_css_vars`: the declarations, trimmed. */
  function CssString(s: Config.Settings, fmt: real -> string): string
  {
    Trim(Declarations(CssTable(s, fmt)))
  }

  lemma {:induction false} DeclarationsShape(t: seq<Decl>)
    requires t != [] && t[0].name != []
    ensures |Declarations(t)| >= 2
    ensures Declarations(t)[0] == t[0].name[0]
    ensures Declarations(t)[|Declarations(t)| - 2..] == "; "
    decreases |t|
  {
    if |t| > 1 {
      DeclarationsShape(t[..|t| - 1]);
    }
  }

  lemma {:induction false} DeclarationsPrefix(t: seq<Decl>)
    requires t != []
    ensures Declaration(t[0]) <= Declarations(t)
    decreases |t|
  {
    if |t| > 1 {
      DeclarationsPrefix(t[..|t| - 1]);
    } else {
      assert Declarations(t) == "" + Declaration(t[0]);
    }
  }

  /**
   * Trimming a non-empty table's declarations removes exactly the final space when the
   * first name starts with a kept character: every declaration stays, in order, the
   * last one ending in ';'.
   */
  lemma TrimmedDeclarations(t: seq<Decl>)
    requires t != [] && t[0].name != [] && !IsTrimmed(t[0].name[0])
    ensures var d := Declarations(t);
      |d| >= 2 && Trim(d) == d[..|d| - 1] && Trim(d)[|d| - 2] == ';'
  {
    var d := Declarations(t);
    DeclarationsShape(t);
    var kept := d[..|d| - 1];
    assert d == kept + [' '];
    assert kept[|kept| - 1] == ';';
    TrimDropsLast(kept, ' ');
  }

  /**
   * The CSS string is every declaration in table order, the last one ending in ';', and
   * it opens with the display duration.
   */
  lemma CssStringShape(s: Config.Settings, fmt: real -> string)
    ensures var d := Declarations(CssTable(s, fmt));
      |d| >= 2 && CssString(s, fmt) == d[..|d| - 1] && CssString(s, fmt)[|d| - 2] == ';'
    ensures CssString(s, fmt)[..24] == "--nsmhs-display-duration"
  {
    LeadingDeclaration(CssTable(s, fmt), "--nsmhs-display-duration");
  }

  /** A table whose first property is `name` keeps `name` at the head of its trimmed string. */
  lemma LeadingDeclaration(t: seq<Decl>, name: string)
    requires t != [] && t[0].name == name && |name| > 0 && !IsTrimmed(name[0])
    ensures var d := Declarations(t);
      |d| >= 2 && Trim(d) == d[..|d| - 1] && Trim(d)[|d| - 2] == ';'
      && |Trim(d)| > |name| && Trim(d)[..|name|] == name
  {
    TrimmedDeclarations(t);
    DeclarationsPrefix(t);
    var d := Declarations(t);
    var d0 := Declaration(t[0]);
    assert d0[..|name|] == name;
    assert |d| >= |d0| > |name| + 1;
    assert d[..|name|] == d0[..|name|];
    assert Trim(d)[..|name|] == d[..|d| - 1][..|name|];
  }

  /**
   * The durations and the blur are written so that `intval`-style reading gives them
   * back: the number before the `ms` or `px` suffix is the stored value.
   */
  lemma DurationsReadBack(s: Config.Settings, fmt: real -> string)
    ensures IntVal(CssTable(s, fmt)[0].value) == s.timing.displayDuration
    ensures IntVal(CssTable(s, fmt)[1].value) == s.timing.zoomInDuration
    ensures IntVal(CssTable(s, fmt)[2].value) == s.timing.zoomOutDuration
    ensures IntVal(CssTable(s, fmt)[5].value) == s.effects.blurPx
  {
    var t := CssTable(s, fmt);
    assert t[0] == t[..4][0] && t[1] == t[..4][1] && t[2] == t[..4][2];
    assert t[5] == t[4..9][1];
    IntValOfIntToStringThen(s.timing.displayDuration, "ms");
    IntValOfIntToStringThen(s.timing.zoomInDuration, "ms");
    IntValOfIntToStringThen(s.timing.zoomOutDuration, "ms");
    IntValOfIntToStringThen(s.effects.blurPx, "px");
  }

  /** The aspect ratio splits at '/' into `cols * 16` and `rows * 9`. */
  lemma AspectRatioReadsBack(g: Config.Grid)
    ensures Explode(AspectRatio(g), '/') == [IntToString(g.cols * 16), IntToString(g.rows * 9)]
    ensures IntVal(Explode(AspectRatio(g), '/')[0]) == g.cols * 16
    ensures IntVal(Explode(AspectRatio(g), '/')[1]) == g.rows * 9
  {
    IntToStringAvoids(g.cols * 16, '/');
    IntToStringAvoids(g.rows * 9, '/');
    assert AspectRatio(g) == IntToString(g.cols * 16) + ['/'] + IntToString(g.rows * 9);
    ExplodeTwo(IntToString(g.cols * 16), IntToString(g.rows * 9), '/');
    IntValOfIntToString(g.cols * 16);
    IntValOfIntToString(g.rows * 9);
  }

  /** The `foreach` appending `name: value; ` per entry of a table, then `trim`. */
  method JoinDeclarations(vars: seq<Decl>) returns (css: string)
    ensures css == Trim(Declarations(vars))
  {
    var acc := "";
    var i := 0;
    while i < |vars|
      invariant 0 <= i <= |vars|
      invariant acc == Declarations(vars[..i])
    {
      acc := acc + vars[i].name + ": " + vars[i].value + "; ";
      assert vars[..i + 1][..i] == vars[..i];
      i := i + 1;
    }
    assert vars[..i] == vars;
    css := Trim(acc);
  }

  /** `generate_css_vars`: the declarations of the table, in order, with the final space trimmed. */
  method GenerateCssVars(s: Config.Settings, fmt: real -> string) returns (css: string)
    ensures css == CssString(s, fmt)
    ensures var d := Declarations(CssTable(s, fmt)); css == d[..|d| - 1]
  {
    css := JoinDeclarations(CssTable(s, fmt));
    CssStringShape(s, fmt);
  }

  // ------------------------------------------------------------ the page

  /** The two shapes `render_showcase` returns. */
  datatype Page =
    | Placeholder
    | Hero(css: string, tiles: seq<TileMarkup>, overlayType: string, density: string, middlePattern: string)

  /** `render_showcase`: no media gives the placeholder and no hero markup at all. */
  function RenderShowcase(s: Config.Settings, fmt: real -> string): (p: Page)
    ensures p.Placeholder? <==> StoredMedia(s) == []
    ensures p.Hero? ==> p.tiles == RenderedTiles(s) && p.css == CssString(s, fmt)
    ensures p.Hero? ==> p.overlayType == s.mid.overlay.kind && p.density == s.mid.overlay.density
  {
    if StoredMedia(s) == [] then Placeholder
    else Hero(CssString(s, fmt), RenderedTiles(s), s.mid.overlay.kind, s.mid.overlay.density, s.mid.middlePattern)
  }

  /** Validated settings with at least one kept media item render a hero with tiles. */
  lemma ValidatedRendersHero(input: Config.RawInput, h: Config.WpHelpers, fmt: real -> string)
    requires input.media.Some? && Config.ValidMedia(input.media.value, h) != []
    ensures RenderShowcase(Config.ValidateSettings(input, h), fmt).Hero?
    ensures |RenderShowcase(Config.ValidateSettings(input, h), fmt).tiles| > 0
  {
    var s := Config.ValidateSettings(input, h);
    RenderedTileCount(s);
  }

  // ---------------------------------------------------------- media order

  /** `[0, 1, ..., n - 1]`. */
  function Range(n: int): (r: seq<int>)
    ensures |r| == Max(0, n)
    ensures forall k :: 0 <= k < |r| ==> r[k] == k
    decreases n
  {
    if n <= 0 then [] else Range(n - 1) + [n - 1]
  }

  lemma RangeIsPermutation(n: int)
    requires n >= 0
    ensures IsPermutationOfRange(Range(n), n)
  {
    var r := Range(n);
    forall k | 0 <= k < n
      ensures k in r
    {
      assert r[k] == k;
    }
  }

  /**
   * The inner loop of the right-to-left walk: row `row`'s cells from its last column to
   * its first, each appended when it is below `total`.
   */
  method AppendMirroredRow(order: seq<int>, cols: int, row: int, total: int) returns (out: seq<int>)
    ensures out == order + KeepBelow(MirroredRow(cols, row), total)
  {
    var base := row * cols;
    out := order;
    var col := cols - 1;
    ghost var lo := base + cols;
    while col >= 0
      invariant col <= cols - 1 && (cols > 0 ==> col >= -1) && (cols <= 0 ==> col == cols - 1)
      invariant lo == base + col + 1
      invariant out == order + KeepBelow(Descending(base + cols, lo), total)
    {
      var index := base + col;
      KeepBelowNext(base + cols, index, total);
      ghost var kept := KeepBelow(Descending(base + cols, lo), total);
      if index < total {
        assert order + kept + [index] == order + (kept + [index]);
        out := out + [index];
      } else {
        assert kept + [] == kept;
      }
      col := col - 1;
      lo := index;
    }
    assert MirroredRow(cols, row) == Descending(base + cols, base);
    if cols <= 0 {
      assert Descending(base + cols, lo) == [] == Descending(base + cols, base);
    }
  }

  /**
   * The nested loops of `get_media_order` over a grid of `cols` x `rows` cells: the cells
   * left to right, or each row from its last column to its first. Either way the result
   * is a permutation of the cells.
   */
  method MediaOrder(rtl: bool, cols: int, rows: int) returns (order: seq<int>)
    ensures rtl ==> order == RtlIndices(cols, rows)
    ensures !rtl ==> order == Range(cols * rows)
    ensures cols > 0 && rows >= 0 ==> IsPermutationOfRange(order, cols * rows)
  {
    var total := cols * rows;
    order := [];
    if rtl {
      var row := 0;
      while row < rows
        invariant 0 <= row && (rows >= 0 ==> row <= rows) && (rows < 0 ==> row == 0)
        invariant order == KeepBelow(RtlIndices(cols, row), total)
      {
        order := AppendMirroredRow(order, cols, row, total);
        KeepBelowConcat(RtlIndices(cols, row), MirroredRow(cols, row), total);
        row := row + 1;
      }
      assert RtlIndices(cols, row) == RtlIndices(cols, rows);
      RtlGuardRedundant(cols, rows);
      if cols > 0 && rows >= 0 {
        RtlMirror(cols, rows);
      }
    } else {
      var i := 0;
      while i < total
        invariant 0 <= i && (total >= 0 ==> i <= total) && (total < 0 ==> i == 0)
        invariant order == Range(i)
      {
        order := order + [i];
        i := i + 1;
      }
      assert Range(i) == Range(total);
      if cols > 0 && rows >= 0 {
        RangeIsPermutation(total);
      }
    }
  }

  /** `get_media_order`: the walk over the desktop grid in the configured direction. */
  method GetMediaOrder(s: Config.Settings) returns (order: seq<int>)
    ensures var g := Config.ParseGrid(s.grids.pc);
      s.order == "rtl" ==> order == RtlIndices(g.cols, g.rows)
    ensures var g := Config.ParseGrid(s.grids.pc);
      s.order != "rtl" ==> order == Range(g.cols * g.rows)
    ensures var g := Config.ParseGrid(s.grids.pc);
      g.cols > 0 && g.rows >= 0 ==> IsPermutationOfRange(order, g.cols * g.rows)
  {
    var g := Config.ParseGrid(s.grids.pc);
    order := MediaOrder(s.order == "rtl", g.cols, g.rows);
  }
}
