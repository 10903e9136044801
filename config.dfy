/**
 * Settings validation of includes/Config.php (class NSMHS_Config): the stored defaults,
 * the clamps and allow-lists of `validate_settings` and `validate_overlay_settings`,
 * the media-item filter, and grid-string parsing.
 *
 * The WordPress sanitizers `esc_url_raw` and `sanitize_text_field` are opaque string
 * functions passed in as `WpHelpers`.
 */
module Config {
  import opened Common
  import opened Text

  /** `esc_url_raw` and `sanitize_text_field`, whose behaviour this model does not see. */
  datatype WpHelpers = WpHelpers(escUrlRaw: string -> string, sanitizeText: string -> string)

  /** Both sanitizers give back what they already produced. */
  ghost predicate Idempotent(h: WpHelpers)
  {
    && (forall s :: h.escUrlRaw(h.escUrlRaw(s)) == h.escUrlRaw(s))
    && (forall s :: h.sanitizeText(h.sanitizeText(s)) == h.sanitizeText(s))
  }

  // ---------------------------------------------------------------- raw input

  /**
   * One scalar leaf of the decoded settings. `Missing` stands for an absent key and for
   * `null`, which PHP's `??` treats alike.
   */
  datatype Scalar = Missing | Bool(b: bool) | Int(i: int) | Float(r: real) | Str(s: string)

  datatype RawMedia =
    | NotArray
    | Fields(kind: Scalar, src: Option<string>, mime: Scalar, poster: Option<string>)

  datatype RawGrids = RawGrids(pc: Scalar, tablet: Scalar, phone: Scalar)

  datatype RawTiming = RawTiming(
    displayDuration: Scalar, zoomInDuration: Scalar, zoomOutDuration: Scalar, easing: Option<string>)

  datatype RawEffects = RawEffects(opacity: Scalar, blurPx: Scalar)

  datatype RawOverlay = RawOverlay(
    kind: Scalar, opacity: Scalar, speed: Scalar, density: Scalar, blendMode: Scalar)

  datatype RawMid = RawMid(
    enabled: Scalar, middlePattern: Scalar, shadowStrength: Scalar, overlay: RawOverlay)

  datatype RawTop = RawTop(
    title: Option<string>, subtitle: Option<string>, ctaText: Option<string>,
    ctaUrl: Option<string>, logoAlt: Option<string>)

  /** The input of `validate_settings`; `media` is `None` when unset or not an array. */
  datatype RawInput = RawInput(
    media: Option<seq<RawMedia>>, grids: RawGrids, order: Scalar,
    timing: RawTiming, effects: RawEffects, mid: RawMid, top: RawTop)

  // ---------------------------------------------------------- validated shape

  datatype MediaItem = MediaItem(kind: MediaKind, src: string, mime: Option<string>, poster: Option<string>)

  datatype Grids = Grids(pc: string, tablet: string, phone: string)

  datatype Timing = Timing(displayDuration: int, zoomInDuration: int, zoomOutDuration: int, easing: string)

  datatype Effects = Effects(opacity: real, blurPx: int)

  datatype Overlay = Overlay(kind: string, opacity: real, speed: real, density: string, blendMode: string)

  datatype Mid = Mid(enabled: bool, middlePattern: string, shadowStrength: real, overlay: Overlay)

  datatype Top = Top(title: string, subtitle: string, ctaText: string, ctaUrl: string, logoAlt: string)

  /** Validated settings; `media` is `None` when the input had no media array. */
  datatype Settings = Settings(
    media: Option<seq<MediaItem>>, grids: Grids, order: string,
    timing: Timing, effects: Effects, mid: Mid, top: Top)

  // ---------------------------------------------------------------- constants

  const AllowedKinds: seq<string> := ["image", "video"]
  const AllowedGrids: seq<string> := ["3x2", "3x4", "4x2", "5x3", "5x4"]
  const AllowedOrders: seq<string> := ["ltr", "rtl"]
  const AllowedMimes: seq<string> :=
    ["image/jpeg", "image/png", "image/webp", "image/gif", "video/mp4", "video/webm", "video/ogg"]
  const AllowedPatterns: seq<string> := ["none", "animated-gradient", "dots", "tiles"]
  const AllowedOverlayTypes: seq<string> := ["none", "constellation", "morph-polygons", "soft-waves"]
  const AllowedDensities: seq<string> := ["low", "medium", "high"]
  const AllowedBlendModes: seq<string> := ["normal", "screen", "overlay", "multiply"]

  /** `get_default_settings` (the logo id and URL are not part of this model). */
  function DefaultSettings(): Settings
  {
    Settings(
      Some([]),
      Grids("5x3", "4x2", "3x2"),
      "ltr",
      Timing(3000, 900, 700, "ease-in-out"),
      Effects(1.0, 6),
      Mid(true, "none", 0.25, Overlay("constellation", 0.25, 1.0, "medium", "normal")),
      Top("", "", "", "", ""))
  }

  // ------------------------------------------------------------ PHP semantics

  /** `x ?? d` for a string leaf. */
  function OrElse(x: Option<string>, d: string): string
  {
    if x.Some? then x.value else d
  }

  /** PHP `empty` of a string: the empty string and "0". */
  predicate EmptyString(s: string)
  {
    s == "" || s == "0"
  }

  /** PHP `empty` of a scalar leaf. */
  predicate EmptyScalar(v: Scalar)
  {
    match v
    case Missing => true
    case Bool(b) => !b
    case Int(i) => i == 0
    case Float(r) => r == 0.0
    case Str(s) => EmptyString(s)
  }

  /** `intval(x ?? d)`. */
  function IntValOr(v: Scalar, d: int): (r: int)
    ensures v.Missing? ==> r == d
    ensures v.Bool? ==> r == (if v.b then 1 else 0)
    ensures v.Int? ==> r == v.i
    ensures v.Float? ==> Truncate(v.r) == r
    ensures v.Str? ==> r == IntVal(v.s)
  {
    match v
    case Missing => d
    case Bool(b) => if b then 1 else 0
    case Int(i) => i
    case Float(x) => Truncate(x)
    case Str(s) => IntVal(s)
  }

  /** `floatval(x ?? d)`. */
  function FloatValOr(v: Scalar, d: real): (r: real)
    ensures v.Missing? ==> r == d
    ensures v.Bool? ==> r == (if v.b then 1.0 else 0.0)
    ensures v.Int? ==> r == v.i as real
    ensures v.Float? ==> r == v.r
    ensures v.Str? ==> r == FloatVal(v.s)
  {
    match v
    case Missing => d
    case Bool(b) => if b then 1.0 else 0.0
    case Int(i) => i as real
    case Float(x) => x
    case Str(s) => FloatVal(s)
  }

  /** `max(lo, min(hi, x))`. */
  function Clamp(lo: int, hi: int, x: int): (r: int)
    requires lo <= hi
    ensures lo <= r <= hi
    ensures lo <= x <= hi ==> r == x
    ensures x < lo ==> r == lo
    ensures x > hi ==> r == hi
  {
    if x < lo then lo else if x > hi then hi else x
  }

  /** `max(lo, min(hi, x))` on the reals `floatval` produced. */
  function ClampReal(lo: real, hi: real, x: real): (r: real)
    requires lo <= hi
    ensures lo <= r <= hi
    ensures lo <= x <= hi ==> r == x
    ensures x < lo ==> r == lo
    ensures x > hi ==> r == hi
  {
    if x < lo then lo else if x > hi then hi else x
  }

  /**
   * PHP 7 loose `==` between a value and an allow-list entry that is a non-empty string
   * and not a numeric string (every entry of every allow-list is one): a boolean compares
   * with the entry's truth value, which is true; a number with the number the entry's
   * numeric prefix denotes (0 when it has none); null and a string only with the same string.
   * PHP 8 compares a number with such an entry as strings instead, so no number matches.
   */
  predicate LooseEquals(v: Scalar, entry: string)
  {
    match v
    case Missing => entry == ""
    case Bool(b) => b == !EmptyString(entry)
    case Int(i) => i as real == FloatVal(entry)
    case Float(x) => x == FloatVal(entry)
    case Str(s) => s == entry
  }

  /** Loose `in_array`: some entry is loosely equal to the value. */
  predicate LooselyIn(v: Scalar, allowed: seq<string>)
  {
    exists k :: 0 <= k < |allowed| && LooseEquals(v, allowed[k])
  }

  /**
   * `in_array($x ?? missing, allowed) ? $x : fallback` as written: the test is loose, and
   * what passes it is stored as it came, whatever its type.
   */
  function AllowListedAsWritten(x: Scalar, missing: string, allowed: seq<string>, fallback: string): (r: Scalar)
    ensures r == x || r == Str(fallback)
    ensures x.Str? ==> (r == x <==> x.s in allowed || x.s == fallback)
    ensures !x.Missing? && !x.Str? && LooselyIn(x, allowed) ==> r == x
  {
    if LooselyIn(if x.Missing? then Str(missing) else x, allowed) then x else Str(fallback)
  }

  /**
   * The allow-list test as intended: only a string on the list is kept, anything else
   * becomes the fallback.
   */
  function AllowListed(x: Scalar, allowed: seq<string>, fallback: string): (r: string)
    ensures r in allowed || r == fallback
    ensures x.Str? && x.s in allowed ==> r == x.s
    ensures !(x.Str? && x.s in allowed) ==> r == fallback
  {
    if x.Str? && x.s in allowed then x.s else fallback
  }

  /** Between strings the loose test is membership. */
  lemma LooselyInString(s: string, allowed: seq<string>)
    ensures LooselyIn(Str(s), allowed) <==> s in allowed
  {
    if s in allowed {
      var k :| 0 <= k < |allowed| && allowed[k] == s;
      assert LooseEquals(Str(s), allowed[k]);
    }
  }

  /**
   * The code as written and the intended test store the same string for every string
   * input and for a missing key whose `??` default is off the list; they differ exactly on
   * a missing key whose default is on the list (stored as null) and on a non-string that
   * loosely equals an entry (stored as that boolean or number).
   */
  lemma AllowListCorrection(x: Scalar, missing: string, allowed: seq<string>, fallback: string)
    requires "" !in allowed
    ensures x.Str? || (x.Missing? && missing !in allowed) ==>
      AllowListedAsWritten(x, missing, allowed, fallback) == Str(AllowListed(x, allowed, fallback))
    ensures AllowListedAsWritten(x, missing, allowed, fallback) != Str(AllowListed(x, allowed, fallback))
      <==> (x.Missing? && missing in allowed) || (!x.Missing? && !x.Str? && LooselyIn(x, allowed))
  {
    if x.Str? {
      LooselyInString(x.s, allowed);
    } else if x.Missing? {
      LooselyInString(missing, allowed);
    }
  }

  /**
   * As written, `true` passes every allow-list and is stored, and so are 0 against an
   * entry without a leading number and 5 against "5x3".
   */
  lemma LooseAllowListStoresNonStrings()
    ensures AllowListedAsWritten(Bool(true), "", AllowedOrders, "ltr") == Bool(true)
    ensures AllowListedAsWritten(Int(0), "", AllowedOrders, "ltr") == Int(0)
    ensures AllowListedAsWritten(Bool(true), "", AllowedGrids, "5x3") == Bool(true)
    ensures AllowListedAsWritten(Int(5), "", AllowedGrids, "5x3") == Int(5)
    ensures AllowListed(Bool(true), AllowedOrders, "ltr") == "ltr" && AllowListed(Int(5), AllowedGrids, "5x3") == "5x3"
  {
    assert LooseEquals(Bool(true), AllowedOrders[0]);
    assert LooseEquals(Bool(true), AllowedGrids[0]);
    assert FloatVal("ltr") == 0.0 by {
      NoNumeral("ltr");
    }
    assert LooseEquals(Int(0), AllowedOrders[0]);
    FiveByThree();
    assert LooseEquals(Int(5), AllowedGrids[3]);
  }

  /** A string that starts with a letter other than 'e' reads as the number 0. */
  lemma NoNumeral(s: string)
    requires s != [] && 'a' <= s[0] <= 'z' && s[0] != 'e'
    ensures FloatVal(s) == 0.0
  {
    var n := Numeral([], [], s);
    FloatValUnsigned(s);
    assert SplitNumeral(s) == n by {
      SplitWhole([], s);
      assert [] + s == s;
    }
    MagnitudeOfSplit(s, n);
    NumeralValueOf(n);
    MantissaWhole([]);
    assert Exponent(s) == 0;
  }

  /** "5x3" reads as the number 5. */
  lemma FiveByThree()
    ensures FloatVal("5x3") == 5.0
  {
    var n := Numeral("5", [], "x3");
    FloatValUnsigned("5x3");
    SplitFiveByThree();
    MagnitudeOfSplit("5x3", n);
    NumeralValueOf(n);
    MantissaWhole("5");
    assert DigitsValue("5") == 5;
  }

  /** `"5x3"` reads as the whole part `5` followed by a rest with no exponent. */
  lemma SplitFiveByThree()
    ensures SplitNumeral("5x3") == Numeral("5", [], "x3")
    ensures Exponent("x3") == 0
  {
    SplitWhole("5", "x3");
    assert "5" + "x3" == "5x3";
  }

  // ------------------------------------------------------------------ media

  /** The kind a MIME type names by its prefix, if any. */
  function MimeKind(mime: string): Option<MediaKind>
  {
    if "image/" <= mime then Some(Image) else if "video/" <= mime then Some(Video) else None
  }

  /** The validated item of one raw media entry, or `None` when it is dropped. */
  function ValidateItem(m: RawMedia, h: WpHelpers): (r: Option<MediaItem>)
    ensures m.NotArray? ==> r.None?
    ensures r.Some? ==> !EmptyString(r.value.src) && r.value.src == h.escUrlRaw(OrElse(m.src, ""))
    ensures r.Some? ==> (r.value.poster.Some? <==> r.value.kind == Video)
    ensures r.Some? && r.value.mime.Some? ==>
      r.value.mime.value in AllowedMimes && MimeKind(r.value.mime.value) == Some(r.value.kind)
    ensures m.Fields? && !EmptyString(h.escUrlRaw(OrElse(m.src, ""))) ==> r.Some?
    ensures r.Some? ==> (r.value.mime.Some? <==> m.mime.Str? && m.mime.s in AllowedMimes)
    ensures r.Some? && r.value.mime.Some? ==> m.Fields? && r.value.mime.value == m.mime.s
    ensures r.Some? && r.value.kind == Video ==> m.Fields? && r.value.poster == Some(h.escUrlRaw(OrElse(m.poster, "")))
    ensures r.Some? && r.value.mime.None? ==>
      r.value.kind == (if m.kind == Str("video") then Video else Image)
  {
    match m
    case NotArray => None
    case Fields(kind, src, mime, poster) =>
      var declared := if AllowListed(kind, AllowedKinds, "image") == "video" then Video else Image;
      var url := h.escUrlRaw(OrElse(src, ""));
      var mimeType := AllowListed(mime, AllowedMimes, "");
      var allowed := mimeType in AllowedMimes;
      var k := if allowed && MimeKind(mimeType).Some? then MimeKind(mimeType).value else declared;
      var item := MediaItem(
        k, url,
        if allowed then Some(mimeType) else None,
        if k == Video then Some(h.escUrlRaw(OrElse(poster, ""))) else None);
      if EmptyString(url) then None else Some(item)
  }

  /** The media list `validate_settings` builds: the kept items, in input order. */
  function ValidMedia(items: seq<RawMedia>, h: WpHelpers): (r: seq<MediaItem>)
    ensures |r| <= |items|
  {
    if items == [] then []
    else
      var last := ValidateItem(items[|items| - 1], h);
      ValidMedia(items[..|items| - 1], h) + (if last.Some? then [last.value] else [])
  }

  /** A media item as `validate_settings` can produce it. */
  predicate WellFormedItem(item: MediaItem)
  {
    && !EmptyString(item.src)
    && (item.poster.Some? <==> item.kind == Video)
    && (item.mime.Some? ==> item.mime.value in AllowedMimes && MimeKind(item.mime.value) == Some(item.kind))
  }

  lemma {:induction false} ValidMediaWellFormed(items: seq<RawMedia>, h: WpHelpers)
    ensures forall k :: 0 <= k < |ValidMedia(items, h)| ==> WellFormedItem(ValidMedia(items, h)[k])
    decreases |items|
  {
    if items != [] {
      ValidMediaWellFormed(items[..|items| - 1], h);
    }
  }

  /**
   * The `foreach` of `validate_settings` over the media array: skip non-arrays, pick the
   * type, apply the MIME override, keep the poster only for video, drop empty sources.
   */
  method ValidateMediaList(items: seq<RawMedia>, h: WpHelpers) returns (validated: seq<MediaItem>)
    ensures validated == ValidMedia(items, h)
    ensures forall k :: 0 <= k < |validated| ==> WellFormedItem(validated[k])
  {
    validated := [];
    var i := 0;
    while i < |items|
      invariant 0 <= i <= |items|
      invariant validated == ValidMedia(items[..i], h)
    {
      var item := ValidateItem(items[i], h);
      if item.Some? {
        validated := validated + [item.value];
      }
      assert items[..i + 1][..i] == items[..i];
      i := i + 1;
    }
    assert items[..i] == items;
    ValidMediaWellFormed(items, h);
  }

  // ----------------------------------------------------------------- fields

  function ValidateGrids(g: RawGrids): (r: Grids)
    ensures r.pc in AllowedGrids && r.tablet in AllowedGrids && r.phone in AllowedGrids
    ensures g.pc.Str? && g.pc.s in AllowedGrids ==> r.pc == g.pc.s
    ensures g.tablet.Str? && g.tablet.s in AllowedGrids ==> r.tablet == g.tablet.s
    ensures g.phone.Str? && g.phone.s in AllowedGrids ==> r.phone == g.phone.s
    ensures !(g.pc.Str? && g.pc.s in AllowedGrids) ==> r.pc == "5x3"
    ensures !(g.tablet.Str? && g.tablet.s in AllowedGrids) ==> r.tablet == "4x2"
    ensures !(g.phone.Str? && g.phone.s in AllowedGrids) ==> r.phone == "3x2"
  {
    Grids(
      AllowListed(g.pc, AllowedGrids, "5x3"),
      AllowListed(g.tablet, AllowedGrids, "4x2"),
      AllowListed(g.phone, AllowedGrids, "3x2"))
  }

  function ValidateOrder(x: Scalar): (r: string)
    ensures r == "ltr" || r == "rtl"
    ensures r == "rtl" <==> x == Str("rtl")
  {
    AllowListed(x, AllowedOrders, "ltr")
  }

  function ValidateTiming(t: RawTiming, h: WpHelpers): (r: Timing)
    ensures 1000 <= r.displayDuration <= 10000
    ensures 300 <= r.zoomInDuration <= 3000 && 300 <= r.zoomOutDuration <= 3000
    ensures t.displayDuration.Missing? ==> r.displayDuration == 3000
    ensures t.zoomInDuration.Missing? ==> r.zoomInDuration == 900
    ensures t.zoomOutDuration.Missing? ==> r.zoomOutDuration == 700
    ensures t.easing.None? ==> r.easing == h.sanitizeText("ease-in-out")
    ensures t.easing.Some? ==> r.easing == h.sanitizeText(t.easing.value)
    ensures 1000 <= IntValOr(t.displayDuration, 3000) <= 10000 ==>
      r.displayDuration == IntValOr(t.displayDuration, 3000)
    ensures 300 <= IntValOr(t.zoomInDuration, 900) <= 3000 ==> r.zoomInDuration == IntValOr(t.zoomInDuration, 900)
    ensures 300 <= IntValOr(t.zoomOutDuration, 700) <= 3000 ==> r.zoomOutDuration == IntValOr(t.zoomOutDuration, 700)
    ensures IntValOr(t.displayDuration, 3000) < 1000 ==> r.displayDuration == 1000
    ensures IntValOr(t.displayDuration, 3000) > 10000 ==> r.displayDuration == 10000
    ensures IntValOr(t.zoomInDuration, 900) < 300 ==> r.zoomInDuration == 300
    ensures IntValOr(t.zoomInDuration, 900) > 3000 ==> r.zoomInDuration == 3000
    ensures IntValOr(t.zoomOutDuration, 700) < 300 ==> r.zoomOutDuration == 300
    ensures IntValOr(t.zoomOutDuration, 700) > 3000 ==> r.zoomOutDuration == 3000
  {
    Timing(
      Clamp(1000, 10000, IntValOr(t.displayDuration, 3000)),
      Clamp(300, 3000, IntValOr(t.zoomInDuration, 900)),
      Clamp(300, 3000, IntValOr(t.zoomOutDuration, 700)),
      h.sanitizeText(OrElse(t.easing, "ease-in-out")))
  }

  function ValidateEffects(e: RawEffects): (r: Effects)
    ensures 0.0 <= r.opacity <= 1.0 && 0 <= r.blurPx <= 20
    ensures e.opacity.Missing? ==> r.opacity == 1.0
    ensures e.blurPx.Missing? ==> r.blurPx == 6
    ensures 0.0 <= FloatValOr(e.opacity, 1.0) <= 1.0 ==> r.opacity == FloatValOr(e.opacity, 1.0)
    ensures 0 <= IntValOr(e.blurPx, 6) <= 20 ==> r.blurPx == IntValOr(e.blurPx, 6)
    ensures FloatValOr(e.opacity, 1.0) < 0.0 ==> r.opacity == 0.0
    ensures FloatValOr(e.opacity, 1.0) > 1.0 ==> r.opacity == 1.0
    ensures IntValOr(e.blurPx, 6) < 0 ==> r.blurPx == 0
    ensures IntValOr(e.blurPx, 6) > 20 ==> r.blurPx == 20
  {
    Effects(
      ClampReal(0.0, 1.0, FloatValOr(e.opacity, 1.0)),
      Clamp(0, 20, IntValOr(e.blurPx, 6)))
  }

  /** `validate_overlay_settings`. */
  function ValidateOverlay(o: RawOverlay): (r: Overlay)
    ensures r.kind in AllowedOverlayTypes && r.density in AllowedDensities
    ensures r.blendMode in AllowedBlendModes
    ensures 0.0 <= r.opacity <= 1.0 && 0.25 <= r.speed <= 2.0
    ensures o.kind.Str? && o.kind.s in AllowedOverlayTypes ==> r.kind == o.kind.s
    ensures o.density.Str? && o.density.s in AllowedDensities ==> r.density == o.density.s
    ensures o.blendMode.Str? && o.blendMode.s in AllowedBlendModes ==> r.blendMode == o.blendMode.s
    ensures !(o.kind.Str? && o.kind.s in AllowedOverlayTypes) ==> r.kind == "constellation"
    ensures !(o.density.Str? && o.density.s in AllowedDensities) ==> r.density == "medium"
    ensures !(o.blendMode.Str? && o.blendMode.s in AllowedBlendModes) ==> r.blendMode == "normal"
    ensures o.opacity.Missing? ==> r.opacity == 0.25
    ensures o.speed.Missing? ==> r.speed == 1.0
    ensures 0.0 <= FloatValOr(o.opacity, 0.25) <= 1.0 ==> r.opacity == FloatValOr(o.opacity, 0.25)
    ensures FloatValOr(o.opacity, 0.25) < 0.0 ==> r.opacity == 0.0
    ensures FloatValOr(o.opacity, 0.25) > 1.0 ==> r.opacity == 1.0
    ensures 0.25 <= FloatValOr(o.speed, 1.0) <= 2.0 ==> r.speed == FloatValOr(o.speed, 1.0)
    ensures FloatValOr(o.speed, 1.0) < 0.25 ==> r.speed == 0.25
    ensures FloatValOr(o.speed, 1.0) > 2.0 ==> r.speed == 2.0
  {
    Overlay(
      AllowListed(o.kind, AllowedOverlayTypes, "constellation"),
      ClampReal(0.0, 1.0, FloatValOr(o.opacity, 0.25)),
      ClampReal(0.25, 2.0, FloatValOr(o.speed, 1.0)),
      AllowListed(o.density, AllowedDensities, "medium"),
      AllowListed(o.blendMode, AllowedBlendModes, "normal"))
  }

  /**
   * The middle-pattern line as written: a missing key falls back to 'none' inside the
   * loose `in_array`, which passes, and then the missing key itself is stored, i.e. null.
   */
  function ValidateMiddlePatternAsWritten(x: Scalar): (r: Scalar)
    ensures x.Missing? ==> r.Missing?
    ensures x.Str? ==> r.Str? && r.s in AllowedPatterns
    ensures x.Str? && x.s in AllowedPatterns ==> r == x
  {
    assert LooseEquals(Str("none"), AllowedPatterns[0]);
    AllowListedAsWritten(x, "none", AllowedPatterns, "none")
  }

  /** The middle pattern the defaults and the allow-list intend: 'none' when missing. */
  function ValidateMiddlePattern(x: Scalar): (r: string)
    ensures r in AllowedPatterns
    ensures x.Str? && x.s in AllowedPatterns ==> r == x.s
    ensures !(x.Str? && x.s in AllowedPatterns) ==> r == "none"
  {
    AllowListed(x, AllowedPatterns, "none")
  }

  /**
   * A missing middle pattern validates to null as written, and to 'none' once corrected;
   * a `true` is stored as it came. On every string the two agree.
   */
  lemma MiddlePatternMissingKey()
    ensures ValidateMiddlePatternAsWritten(Missing) == Missing
    ensures ValidateMiddlePattern(Missing) == "none"
    ensures ValidateMiddlePatternAsWritten(Bool(true)) == Bool(true)
    ensures ValidateMiddlePattern(Bool(true)) == "none"
    ensures forall p :: ValidateMiddlePatternAsWritten(Str(p)) == Str(ValidateMiddlePattern(Str(p)))
  {
    assert LooseEquals(Str("none"), AllowedPatterns[0]);
    assert LooseEquals(Bool(true), AllowedPatterns[0]);
    forall p
      ensures ValidateMiddlePatternAsWritten(Str(p)) == Str(ValidateMiddlePattern(Str(p)))
    {
      AllowListCorrection(Str(p), "none", AllowedPatterns, "none");
    }
  }

  function ValidateMid(m: RawMid): (r: Mid)
    ensures r.enabled <==> !EmptyScalar(m.enabled)
    ensures r.middlePattern == ValidateMiddlePattern(m.middlePattern)
    ensures r.middlePattern in AllowedPatterns && 0.0 <= r.shadowStrength <= 1.0
    ensures m.shadowStrength.Missing? ==> r.shadowStrength == 0.25
    ensures 0.0 <= FloatValOr(m.shadowStrength, 0.25) <= 1.0 ==> r.shadowStrength == FloatValOr(m.shadowStrength, 0.25)
    ensures FloatValOr(m.shadowStrength, 0.25) < 0.0 ==> r.shadowStrength == 0.0
    ensures FloatValOr(m.shadowStrength, 0.25) > 1.0 ==> r.shadowStrength == 1.0
    ensures r.overlay == ValidateOverlay(m.overlay)
  {
    Mid(
      !EmptyScalar(m.enabled),
      ValidateMiddlePattern(m.middlePattern),
      ClampReal(0.0, 1.0, FloatValOr(m.shadowStrength, 0.25)),
      ValidateOverlay(m.overlay))
  }

  function ValidateTop(t: RawTop, h: WpHelpers): (r: Top)
    ensures r.ctaUrl == h.escUrlRaw(OrElse(t.ctaUrl, ""))
    ensures r.title == h.sanitizeText(OrElse(t.title, ""))
    ensures r.subtitle == h.sanitizeText(OrElse(t.subtitle, ""))
    ensures r.ctaText == h.sanitizeText(OrElse(t.ctaText, ""))
    ensures r.logoAlt == h.sanitizeText(OrElse(t.logoAlt, ""))
  {
    Top(
      h.sanitizeText(OrElse(t.title, "")),
      h.sanitizeText(OrElse(t.subtitle, "")),
      h.sanitizeText(OrElse(t.ctaText, "")),
      h.escUrlRaw(OrElse(t.ctaUrl, "")),
      h.sanitizeText(OrElse(t.logoAlt, "")))
  }

  /** Validated settings satisfy every clamp and every allow-list. */
  ghost predicate WellFormed(s: Settings)
  {
    && (s.media.Some? ==> forall k :: 0 <= k < |s.media.value| ==> WellFormedItem(s.media.value[k]))
    && s.grids.pc in AllowedGrids && s.grids.tablet in AllowedGrids && s.grids.phone in AllowedGrids
    && s.order in AllowedOrders
    && 1000 <= s.timing.displayDuration <= 10000
    && 300 <= s.timing.zoomInDuration <= 3000 && 300 <= s.timing.zoomOutDuration <= 3000
    && 0.0 <= s.effects.opacity <= 1.0 && 0 <= s.effects.blurPx <= 20
    && s.mid.middlePattern in AllowedPatterns && 0.0 <= s.mid.shadowStrength <= 1.0
    && s.mid.overlay.kind in AllowedOverlayTypes && s.mid.overlay.density in AllowedDensities
    && s.mid.overlay.blendMode in AllowedBlendModes
    && 0.0 <= s.mid.overlay.opacity <= 1.0 && 0.25 <= s.mid.overlay.speed <= 2.0
  }

  /** `validate_settings`. */
  function ValidateSettings(input: RawInput, h: WpHelpers): (r: Settings)
    ensures WellFormed(r)
    ensures r.media.Some? <==> input.media.Some?
    ensures r.media.Some? ==> r.media.value == ValidMedia(input.media.value, h)
    ensures r.grids == ValidateGrids(input.grids) && r.order == ValidateOrder(input.order)
    ensures r.timing == ValidateTiming(input.timing, h) && r.effects == ValidateEffects(input.effects)
    ensures r.mid == ValidateMid(input.mid) && r.top == ValidateTop(input.top, h)
  {
    ValidMediaWellFormed(if input.media.Some? then input.media.value else [], h);
    Settings(
      if input.media.Some? then Some(ValidMedia(input.media.value, h)) else None,
      ValidateGrids(input.grids),
      ValidateOrder(input.order),
      ValidateTiming(input.timing, h),
      ValidateEffects(input.effects),
      ValidateMid(input.mid),
      ValidateTop(input.top, h))
  }

  // ---------------------------------------------------------- re-validation

  function KindName(k: MediaKind): string
  {
    if k == Video then "video" else "image"
  }

  /** A validated media item, submitted again. */
  function ItemInput(item: MediaItem): RawMedia
  {
    Fields(Str(KindName(item.kind)), Some(item.src), if item.mime.Some? then Str(item.mime.value) else Missing, item.poster)
  }

  function MediaInput(items: seq<MediaItem>): (r: seq<RawMedia>)
    ensures |r| == |items| && forall k :: 0 <= k < |items| ==> r[k] == ItemInput(items[k])
  {
    if items == [] then [] else MediaInput(items[..|items| - 1]) + [ItemInput(items[|items| - 1])]
  }

  /** Validated settings, submitted again as the input of `validate_settings`. */
  function AsInput(s: Settings): RawInput
  {
    RawInput(
      if s.media.Some? then Some(MediaInput(s.media.value)) else None,
      RawGrids(Str(s.grids.pc), Str(s.grids.tablet), Str(s.grids.phone)),
      Str(s.order),
      RawTiming(
        Int(s.timing.displayDuration), Int(s.timing.zoomInDuration),
        Int(s.timing.zoomOutDuration), Some(s.timing.easing)),
      RawEffects(Float(s.effects.opacity), Int(s.effects.blurPx)),
      RawMid(
        Bool(s.mid.enabled), Str(s.mid.middlePattern), Float(s.mid.shadowStrength),
        RawOverlay(
          Str(s.mid.overlay.kind), Float(s.mid.overlay.opacity), Float(s.mid.overlay.speed),
          Str(s.mid.overlay.density), Str(s.mid.overlay.blendMode))),
      RawTop(
        Some(s.top.title), Some(s.top.subtitle), Some(s.top.ctaText),
        Some(s.top.ctaUrl), Some(s.top.logoAlt)))
  }

  /** An item `validate_settings` produced passes through it again unchanged. */
  lemma ItemRevalidates(item: MediaItem, h: WpHelpers)
    requires Idempotent(h) && WellFormedItem(item)
    requires item.src == h.escUrlRaw(item.src)
    requires item.poster.Some? ==> item.poster.value == h.escUrlRaw(item.poster.value)
    ensures ValidateItem(ItemInput(item), h) == Some(item)
  {
    if item.mime.Some? {
      var m := item.mime.value;
      assert m in AllowedMimes;
      assert MimeKind(m).Some?;
    }
  }

  /** Items produced by the sanitizer are fixed points of it. */
  ghost predicate Sanitized(item: MediaItem, h: WpHelpers)
  {
    && item.src == h.escUrlRaw(item.src)
    && (item.poster.Some? ==> item.poster.value == h.escUrlRaw(item.poster.value))
  }

  lemma {:induction false} ValidMediaSanitized(items: seq<RawMedia>, h: WpHelpers)
    requires Idempotent(h)
    ensures forall k :: 0 <= k < |ValidMedia(items, h)| ==> Sanitized(ValidMedia(items, h)[k], h)
    decreases |items|
  {
    if items != [] {
      ValidMediaSanitized(items[..|items| - 1], h);
    }
  }

  lemma {:induction false} MediaRevalidates(items: seq<MediaItem>, h: WpHelpers)
    requires Idempotent(h)
    requires forall k :: 0 <= k < |items| ==> WellFormedItem(items[k]) && Sanitized(items[k], h)
    ensures ValidMedia(MediaInput(items), h) == items
    decreases |items|
  {
    if items != [] {
      var init := items[..|items| - 1];
      var raw := MediaInput(items);
      assert raw[..|raw| - 1] == MediaInput(init);
      MediaRevalidates(init, h);
      ItemRevalidates(items[|items| - 1], h);
    }
  }

  /**
   * Validation is idempotent: validating the output of `validate_settings` again gives
   * the same settings, provided the WordPress sanitizers are idempotent themselves.
   */
  lemma ValidateIdempotent(input: RawInput, h: WpHelpers)
    requires Idempotent(h)
    ensures ValidateSettings(AsInput(ValidateSettings(input, h)), h) == ValidateSettings(input, h)
  {
    var s := ValidateSettings(input, h);
    if input.media.Some? {
      ValidMediaWellFormed(input.media.value, h);
      ValidMediaSanitized(input.media.value, h);
      MediaRevalidates(s.media.value, h);
    }
    TimingRevalidates(input.timing, h);
    MidRevalidates(input.mid);
    TopRevalidates(input.top, h);
  }

  /** Validated timing, submitted again as whole numbers and a string, comes back unchanged. */
  lemma TimingRevalidates(t: RawTiming, h: WpHelpers)
    requires Idempotent(h)
    ensures var v := ValidateTiming(t, h);
      ValidateTiming(RawTiming(Int(v.displayDuration), Int(v.zoomInDuration), Int(v.zoomOutDuration), Some(v.easing)), h) == v
  {
  }

  /** Validated middle-layer settings, submitted again, come back unchanged. */
  lemma MidRevalidates(m: RawMid)
    ensures var v := ValidateMid(m);
      ValidateMid(RawMid(Bool(v.enabled), Str(v.middlePattern), Float(v.shadowStrength),
        RawOverlay(Str(v.overlay.kind), Float(v.overlay.opacity), Float(v.overlay.speed),
          Str(v.overlay.density), Str(v.overlay.blendMode)))) == v
  {
  }

  /** Sanitized top-layer strings, submitted again, come back unchanged. */
  lemma TopRevalidates(t: RawTop, h: WpHelpers)
    requires Idempotent(h)
    ensures var v := ValidateTop(t, h);
      ValidateTop(RawTop(Some(v.title), Some(v.subtitle), Some(v.ctaText), Some(v.ctaUrl), Some(v.logoAlt)), h) == v
  {
  }

  /**
   * The defaults are already valid: validating them changes nothing, provided the
   * sanitizers leave the default strings alone.
   */
  lemma DefaultsValidate(h: WpHelpers)
    requires h.sanitizeText("") == "" && h.sanitizeText("ease-in-out") == "ease-in-out"
    requires h.escUrlRaw("") == ""
    ensures ValidateSettings(AsInput(DefaultSettings()), h) == DefaultSettings()
  {
    assert MediaInput([]) == [];
  }

  /**
   * An input with every key missing validates to the defaults, except that it has no
   * media list and the middle layer is disabled (`!empty` of a missing key is false).
   */
  lemma EmptyInputDefaults(h: WpHelpers)
    requires h.sanitizeText("") == "" && h.sanitizeText("ease-in-out") == "ease-in-out"
    requires h.escUrlRaw("") == ""
    ensures var none := RawOverlay(Missing, Missing, Missing, Missing, Missing);
      var input := RawInput(
        None, RawGrids(Missing, Missing, Missing), Missing, RawTiming(Missing, Missing, Missing, None),
        RawEffects(Missing, Missing), RawMid(Missing, Missing, Missing, none), RawTop(None, None, None, None, None));
      ValidateSettings(input, h) == DefaultSettings().(media := None, mid := DefaultSettings().mid.(enabled := false))
  {
  }

  // ------------------------------------------------------------------- grids

  datatype Grid = Grid(cols: int, rows: int)

  /**
   * `parse_grid`: split on 'x'; columns are the `intval` of the first piece, rows of the
   * second, and 2 when there is no second piece. (`explode` always yields a first piece,
   * so the source's fallback of 3 columns never applies.)
   */
  function ParseGrid(g: string): Grid
  {
    var parts := Explode(g, 'x');
    Grid(IntVal(parts[0]), if |parts| > 1 then IntVal(parts[1]) else 2)
  }

  /** `get_grid_cells`. */
  function GridCells(g: string): int
  {
    ParseGrid(g).cols * ParseGrid(g).rows
  }

  /** The grid string of a column and row count, as the settings store it. */
  function FormatGrid(cols: int, rows: int): string
  {
    IntToString(cols) + "x" + IntToString(rows)
  }

  /** Parsing a formatted grid gives back its columns and rows. */
  lemma ParseFormatGrid(cols: int, rows: int)
    ensures ParseGrid(FormatGrid(cols, rows)) == Grid(cols, rows)
    ensures GridCells(FormatGrid(cols, rows)) == cols * rows
  {
    IntToStringAvoids(cols, 'x');
    IntToStringAvoids(rows, 'x');
    ExplodeTwo(IntToString(cols), IntToString(rows), 'x');
    assert FormatGrid(cols, rows) == IntToString(cols) + ['x'] + IntToString(rows);
    IntValOfIntToString(cols);
    IntValOfIntToString(rows);
  }

  /** A grid string without an 'x' has the default two rows. */
  lemma ParseGridWithoutRows(g: string)
    requires 'x' !in g
    ensures ParseGrid(g) == Grid(IntVal(g), 2)
  {
    ExplodeOne(g, 'x');
  }

  lemma FormatSmallGrids()
    ensures FormatGrid(3, 2) == "3x2" && FormatGrid(3, 4) == "3x4" && FormatGrid(4, 2) == "4x2"
    ensures FormatGrid(5, 3) == "5x3" && FormatGrid(5, 4) == "5x4"
  {
  }

  /**
   * A grid stored as `true` by the loose allow-list reaches `parse_grid` as the string
   * "1": one column and the default two rows, a grid that is not on the list.
   */
  lemma TrueGridOffList()
    ensures ParseGrid("1") == Grid(1, 2) && GridCells("1") == 2
    ensures "1" !in AllowedGrids
  {
    ExplodeOne("1", 'x');
    assert IntToString(1) == "1";
    IntValOfIntToString(1);
  }

  /** Every allowed grid parses to its own columns and rows; 5x4 has the most cells. */
  lemma AllowedGridCells(g: string)
    requires g in AllowedGrids
    ensures ParseGrid(g).cols in {3, 4, 5} && ParseGrid(g).rows in {2, 3, 4}
    ensures GridCells(g) in {6, 12, 8, 15, 20}
    ensures 6 <= GridCells(g) <= 20
    ensures g == "5x3" ==> ParseGrid(g) == Grid(5, 3)
    ensures g == "4x2" ==> ParseGrid(g) == Grid(4, 2)
    ensures g == "3x2" ==> ParseGrid(g) == Grid(3, 2)
  {
    var cols, rows := 5, 4;
    if g == "3x2" { cols, rows := 3, 2; }
    else if g == "3x4" { cols, rows := 3, 4; }
    else if g == "4x2" { cols, rows := 4, 2; }
    else if g == "5x3" { cols, rows := 5, 3; }
    assert g == FormatGrid(cols, rows) by { FormatSmallGrids(); }
    ParseFormatGrid(cols, rows);
  }
}
