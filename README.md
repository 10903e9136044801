# NS Media Hero Showcase, modelled in Dafny

NS Media Hero Showcase is a WordPress plugin that renders a "hero" block. The block is
a grid of image and video tiles. A script zooms each tile in turn to fill the hero, holds
it, and fades it out again. An optional animated canvas overlay (particles, morphing
polygons or soft waves) runs over the tiles. This project models the core of the plugin
and proves properties of that model.

- **Settings validation** (`includes/Config.php`, module `Config`): the defaults and the
  clamps and allow-lists of `validate_settings` and `validate_overlay_settings`. This
  includes the media-item filter and its loop, `parse_grid` and `get_grid_cells`. The
  PHP conversions they rely on (`intval` and `floatval` with fractions and exponents,
  `explode`, `trim`, integer-to-string conversion) are in module `Text`. A raw setting
  is a PHP scalar: missing, a boolean, an integer, a float or a string.
- **Server-side layout** (`includes/Render.php`, module `Render`): the empty-media guard
  of `render_showcase`, the tile cap of `render_media_tiles`, the custom-property
  string of `generate_css_vars` with its aspect ratios, and the index order of
  `get_media_order`. The right-to-left raster walk that this shares with the frontend
  is in module `Raster`.
- **Tile sequencer** (`assets/js/frontend.js`, class `NSMediaHeroShowcase`):
  - module `Sequencer` is a state machine. It holds the flags, the tile cursor, the
    zoom display and the pending timers, plus the events the browser delivers:
    viewport and tab visibility, the reduced-motion query, resizes, timers coming
    due, the overlay module loading, and `destroy`;
  - module `Frontend` holds class `Showcase`, which has the script's fields and
    methods. Every method is proved to change the object exactly as the `Sequencer`
    function of the same name changes the state. `calculateRTLOrder` keeps its two
    nested loops.
- **Canvas overlays** (`assets/js/overlays/*.js`):
  - modules `Constellation`, `MorphPolygons` and `SoftWaves` each hold one class
    `Overlay`, the closure state of `init`, with `start`, `stop`, `destroy`,
    `resize`, `downgrade` and `render`;
  - the logic the three files each write out for themselves is stated once in module
    `Governor`: the density-to-count tables, the downgrade ladder, the 60-frame cost
    meter, the truncated canvas backing size and the 30 fps cap.

**Environment.** The model stands in for the browser and WordPress as follows:

- Timers and animation frames are explicit pending callbacks that the environment
  fires, so there is no clock.
- `Math.random()` is a supply of draws in [0, 1), passed as a parameter (`Draws`).
- `Math.sin`, the measured frame cost, `performance.now()` and element boxes are
  parameters.
- `esc_url_raw` and `sanitize_text_field` are uninterpreted functions.
- The page a showcase reads is a fixed snapshot.

**Behaviours the model exposes as written:**

- `pauseAnimation` never clears `isPlaying`. So the viewport observer, which resumes
  only when nothing is playing, never restarts a sequence it paused. Only a tab switch
  resumes it.
- The 50 ms settle timer and the zoom-out timer are never remembered in `timeoutId`,
  so pausing does not cancel them. Hiding and showing the tab while one is pending
  runs two zoom cycles side by side. A settle timer that fires after `stopAnimation`
  still grows its tile to full size.
- `destroy` leaves the tab listener registered, so coming back to the tab starts the
  destroyed overlay again.
- An overlay created while reduced motion was requested never starts, even after the
  user stops requesting it.
- Stopping an overlay does not cancel the timer of its 30 fps cap. A `stop` and
  `start` within 33 ms therefore leaves two render loops pending.
- The per-frame resize check compares the backing size with the whole-pixel layout
  size (`offsetWidth`) times the ratio, but `resize` sizes the canvas from the
  fractional bounding box, truncated. On a box of whole pixels a fractional product of
  size and ratio makes every frame see a mismatch and resize, which draws new random
  positions (`Governor.ResizeSettles`). On a fractional box the outcome depends on how
  the two measures round: a 100.5-pixel box at ratio 2 resizes every frame although
  both products are whole, and a 100.4-pixel box with layout size 100 at ratio 1.5
  settles although its own product is fractional.
- The markup of `render_showcase` has no `.ns-hero__mid` element. The frontend's
  overlay loader looks for one, so with the server's own markup no canvas overlay is
  ever loaded (`Page.canvasOverlay` is then false).
- Reduced motion: the plugin's description says it pauses the zoom sequence. The code
  only shortens the zoom transitions to 300 ms and stops the overlay. The model
  follows the code.
- The allow-list tests of `validate_settings` use loose `in_array` and store what
  passed as it came, so a JSON `true` is stored as the order or a grid, and a missing
  `middlePattern` is stored as null. The plugin asks for PHP 7.4 or later
  (`ns-media-hero-showcase.php:11`). Loose equality is modelled as PHP 7 defines it,
  where a number also matches a non-numeric string by its numeric prefix (`0` matches
  'ltr', `5` matches '5x3'). PHP 8 compares a number with a non-numeric string as
  strings, so there only `true` passes a list it is not on. The model proves this of the code as written and
  validates with the corrected test (see Findings).
- The default `shadowStrength` is 0.25 (`includes/Config.php:51`). The frontend's
  fallback is 0.6 (`assets/js/frontend.js:422`). The model keeps both values where
  they occur.

## Model

| member | source | states |
|---|---|---|
| `Common.Scaled` | assets/js/overlays/constellation.js:33-34 | `Math.random() * extent` lies in [0, extent], and strictly below a positive extent |
| `Common.CenteredDraw` | assets/js/overlays/constellation.js:28-29 | a velocity component `(random - 0.5) * 0.5 * speed` lies within a quarter of `speed` either side of 0 |
| `Text.NatToString` | includes/Render.php:184 | the decimal form PHP writes for a non-negative integer is a non-empty string of digits |
| `Text.LeadingDigits` | includes/Config.php:127 | the run of digits `intval` reads is a prefix of the text, and it stops at the first non-digit |
| `Text.SkipSpace` | includes/Config.php:127 | what is left after the skipped whitespace is a suffix of the input, and it does not start with whitespace |
| `Text.IntValUnsigned` | includes/Config.php:127 | `intval` of text without a leading sign or space and without an exponent is the value of its leading digits: a fraction is cut off |
| `Text.IntValNegative` | includes/Config.php:127 | `intval` of '-' then text without an exponent is the value of the text's leading digits, negated: truncation is toward zero |
| `Text.Scale` | includes/Config.php:127 | scaling by a power of ten keeps a non-negative value non-negative, and a zero exponent changes nothing |
| `Text.SplitNumeralJoins` | includes/Config.php:127 | the whole digits, the point with the fraction digits when there is one, and the rest make up the string again |
| `Text.Mantissa` | includes/Config.php:127 | whole digits with a fraction are never a whole unit above the whole digits |
| `Text.Fraction` | includes/Config.php:135 | the digits after the point are worth at least 0 and less than 1, and nothing at all when absent |
| `Text.Truncate` | includes/Config.php:127 | PHP's float-to-int conversion truncates toward zero: below a non-negative value by less than 1, above a negative one by less than 1 |
| `Text.MagnitudeWhole` | includes/Config.php:127 | without an exponent, truncating a numeral gives its whole digits |
| `Text.FloatValUnsigned` | includes/Config.php:135 | `floatval` of text starting with neither space nor sign is its numeric prefix |
| `Text.FloatValNegative` | includes/Config.php:135 | `floatval` of '-' then text is the text's numeric prefix, negated |
| `Text.IntValExponent` | includes/Config.php:127 | `intval` of digits, 'e' and digits is the first number times ten to the power of the second (PHP 7.1 and later) |
| `Text.IntValExamples` | includes/Config.php:127-129 | "2e3" is 2000, "1.5e3" is 1500, "1e-3" is 0, "5.9" is 5, "-5.9" is -5 and ".5" is 0 |
| `Text.IntValDigitsThen` | includes/Config.php:127 | digits followed by a character that neither continues nor scales them read as those digits |
| `Text.IntValNegativeDigitsThen` | includes/Config.php:127 | the same after a '-', negated |
| `Text.LeadingIntUnsigned` | assets/js/frontend.js:107-108 | `parseInt` of text without a leading sign or JavaScript whitespace is the value of its leading digits |
| `Text.NumericSpaceIsJsSpace` | assets/js/frontend.js:107-108 | every space PHP allows before a numeric string is JavaScript whitespace too, while the no-break space is only JavaScript's |
| `Text.LeadingIntSkipsNoBreakSpace` | assets/js/frontend.js:107-108 | `parseInt` skips JavaScript's whitespace, which includes the no-break space that PHP's numeric strings do not allow: "\u00A05" reads 5 |
| `Text.LeadingIntNegative` | assets/js/frontend.js:107-108 | `parseInt` of '-' then text is the value of the text's leading digits, negated |
| `Text.LeadingIntOfIntToString` | assets/js/frontend.js:107-108 | `parseInt` reads back every integer the server writes |
| `Text.IntValOfIntToString` | includes/Render.php:193-194 | `intval` reads back every integer PHP writes as a string |
| `Text.IntValOfIntToStringThen` | includes/Render.php:184-189 | `intval` of a written integer followed by a suffix such as `ms` or `px` is that integer |
| `Text.IntToStringAvoids` | includes/Render.php:179-181 | a written integer contains no character other than digits and a leading '-', so it never contains the '/' or 'x' separators |
| `Text.Explode` | includes/Config.php:261 | `explode` always yields at least one piece |
| `Text.ImplodeExplode` | includes/Config.php:261 | joining the pieces of `explode` with the separator gives back the original string |
| `Text.ExplodePiecesFree` | includes/Config.php:261 | no piece of `explode` contains the separator |
| `Text.ExplodeTwo` | includes/Config.php:261-264 | splitting `a x b`, where neither side contains the separator, gives exactly `[a, b]` |
| `Text.ExplodeOne` | includes/Config.php:261-264 | a string without the separator is a single piece, so `$parts[1]` is missing |
| `Text.TrimLeft` | includes/Render.php:209 | the left trim is a suffix of the input and does not start with a trimmed character |
| `Text.TrimRight` | includes/Render.php:209 | the right trim is a prefix of the input, does not end with a trimmed character, and drops only trimmed characters |
| `Text.TrimKeeps` | includes/Render.php:209 | `trim` leaves alone a non-empty string that neither starts nor ends with a trimmed character |
| `Text.TrimDropsLast` | includes/Render.php:209 | `trim` of text ending in one trailing whitespace character removes exactly that character |
| `Raster.KeepBelow` | includes/Render.php:223-224 | the guard keeps a value exactly when it occurs in the input and lies below the bound, and never adds elements |
| `Raster.DescendingAt` | includes/Render.php:221 | the column loop from `cols - 1` down to 0 lists `top - 1 - k` at step k, `max(0, top - lo)` cells in all |
| `Raster.KeepBelowDescendingLength` | assets/js/frontend.js:112-116 | the cells of one row that the guard keeps number `max(0, min(top, n) - lo)` |
| `Raster.RtlDegenerate` | includes/Render.php:220-221 | with no columns or no rows the walk is empty |
| `Raster.RtlLength` | includes/Render.php:220-227 | the right-to-left walk lists `cols * rows` cells |
| `Raster.RtlAt` | includes/Render.php:221-222 | position `r * cols + j` of the walk holds the cell in column `cols - 1 - j` of row r |
| `Raster.RtlMirror` | includes/Render.php:218-227 | the right-to-left walk is a permutation of `0..cols*rows-1`, and it is its own inverse |
| `Raster.RtlGuardRedundant` | includes/Render.php:223 | the `$index < $total_cells` guard never drops a cell |
| `Raster.RtlKeptLength` | assets/js/frontend.js:111-118 | with n tiles present, the frontend's walk keeps `min(n, cols * rows)` cells |
| `Raster.RtlThreeByTwo` | includes/Render.php:218-227 | the 3 x 2 grid walked right to left is `[2, 1, 0, 5, 4, 3]` |
| `Raster.RtlThreeByTwoPartial` | assets/js/frontend.js:111-118 | with four tiles on a 3 x 2 grid the walk keeps `[2, 1, 0, 3]` |
| `Config.IntValOr` | includes/Config.php:127-129 | `intval($x ?? d)`: the default for a missing key, 1 or 0 for a boolean, the integer itself, a float truncated toward zero, `intval` of a string |
| `Config.FloatValOr` | includes/Config.php:135 | `floatval($x ?? d)`: the default for a missing key, 1 or 0 for a boolean, the number itself, `floatval` of a string |
| `Config.Clamp` | includes/Config.php:127-129 | `max(lo, min(hi, x))` lies in [lo, hi], is x inside the range, and the nearer bound outside it |
| `Config.ClampReal` | includes/Config.php:135 | the real clamp lies in [lo, hi]: a value inside it is kept, one below becomes lo, one above becomes hi |
| `Config.AllowListed` | includes/Config.php:117-123 | the corrected allow-list test: a string on the list is kept, anything else (a missing key, a boolean, a number, a string off the list) becomes the fallback |
| `Config.AllowListedAsWritten` | includes/Config.php:117-123 | the loose `in_array` as written stores either the input as it came or the fallback; a string is kept exactly when it is on the list or is the fallback; a boolean or number loosely equal to an entry is kept |
| `Config.LooselyInString` | includes/Config.php:123 | between strings, loose `in_array` is plain membership |
| `Config.AllowListCorrection` | includes/Config.php:117-123 | as written and corrected agree on every string and on a missing key whose default is off the list; they differ exactly on a missing key whose default is on the list and on a boolean or number loosely equal to an entry |
| `Config.LooseAllowListStoresNonStrings` | includes/Config.php:117-123 | as written under PHP 7, `true` and `0` pass the order list and are stored, as do `true` and `5` for a grid (under PHP 8 only `true` does); the corrected test gives 'ltr' and '5x3' |
| `Config.NoNumeral` | includes/Config.php:123 | a string starting with a letter other than 'e' reads as the number 0, which is why `0` loosely matches 'ltr' under PHP 7 (not under PHP 8) |
| `Config.FiveByThree` | includes/Config.php:117 | "5x3" reads as the number 5, which is why `5` loosely matches it under PHP 7 (not under PHP 8) |
| `Config.TrueGridOffList` | includes/Config.php:260-271 | a grid stored as `true` reaches `parse_grid` as "1": one column, two rows, 2 cells, a grid not on the list |
| `Config.ValidateItem` | includes/Config.php:80-110 | a non-array entry is dropped; a kept item has a non-empty source equal to the escaped input, and an entry whose escaped source is non-empty is kept; the MIME type is kept exactly when it is a string on the allow-list, is then the input's MIME and agrees with the type; without it the type is video exactly when the input is the string "video" (the corrected strict test, `Config.AllowListed`, for lines 83 and 93); a poster is kept exactly for video, and is the escaped input poster ("" when missing) |
| `Config.ValidMediaWellFormed` | includes/Config.php:82-110 | every kept item has a non-empty source, a poster exactly when it is a video, and a MIME only from the allow-list that agrees with its type |
| `Config.ValidateMediaList` | includes/Config.php:77-112 | the `foreach` builds exactly the kept items in input order, each well formed |
| `Config.ValidateGrids` | includes/Config.php:115-120 | each grid is one of 3x2, 3x4, 4x2, 5x3, 5x4; an allowed string is kept; anything else falls back, pc to 5x3, tablet to 4x2, phone to 3x2 (the corrected strict test, `Config.AllowListed`) |
| `Config.ValidateOrder` | includes/Config.php:123 | the order is 'ltr' or 'rtl', and it is 'rtl' exactly when the input was the string 'rtl' (the corrected strict test, `Config.AllowListed`) |
| `Config.ValidateTiming` | includes/Config.php:126-131 | display duration in [1000, 10000] defaulting to 3000; zoom-in and zoom-out in [300, 3000] defaulting to 900 and 700; an in-range value is kept as `intval` reads it, one below its range becomes the lower bound and one above becomes the upper bound; a present easing is stored sanitized, a missing one defaults to 'ease-in-out' |
| `Config.ValidateEffects` | includes/Config.php:134-137 | opacity in [0, 1] defaulting to 1; blur in [0, 20] defaulting to 6; each is `floatval` or `intval` of the input when that lies in range, the lower bound below it and the upper bound above it |
| `Config.ValidateOverlay` | includes/Config.php:203-217 | type, density and blend mode are an allowed input string, or else constellation, medium and normal (the corrected strict test, `Config.AllowListed`); opacity in [0, 1] defaulting to 0.25, speed in [0.25, 2] defaulting to 1; each is `floatval` of the input when in range, the lower bound below it and the upper bound above it |
| `Config.ValidateMiddlePatternAsWritten` | includes/Config.php:143 | as written, a missing middle pattern validates to null; a present one is always from the allow-list |
| `Config.ValidateMiddlePattern` | includes/Config.php:143 | the corrected middle pattern is from the allow-list: the input when allowed, 'none' when missing |
| `Config.MiddlePatternMissingKey` | includes/Config.php:143 | the two versions agree on every present value; on a missing key the code as written gives null and the corrected one gives 'none' |
| `Config.ValidateMid` | includes/Config.php:141-146 | `enabled` is the negation of PHP `empty`; the pattern is the corrected `Config.ValidateMiddlePattern` of the input, so 'none' for a missing key where the code as written stores null; shadow strength in [0, 1] defaulting to 0.25, `floatval` of the input when in range, 0 below and 1 above; the overlay is `validate_overlay_settings` of its input |
| `Config.ValidateTop` | includes/Config.php:147-155 | the title, subtitle, call-to-action text and logo alt text are each the sanitized input and the call-to-action URL the escaped input, with the empty string standing in for a missing key (the logo id and URL are not part of this model) |
| `Config.ValidateSettings` | includes/Config.php:73-159 | the result satisfies every clamp and allow-list; it has a media list exactly when the input had a media array, and that list is the kept items in order (`Config.ValidMedia`); grids, order, timing, effects, middle and top layers are each their validator's result on the matching input; it uses the corrected allow-list test and middle pattern (see Findings) |
| `Config.EmptyInputDefaults` | includes/Config.php:73-159 | an input with every key missing validates to the default settings (5x3/4x2/3x2, 'ltr', 3000/900/700 ms, opacity 1, blur 6, the constellation overlay), without a media list and with the middle layer disabled |
| `Config.ItemRevalidates` | includes/Config.php:82-110 | a validated item submitted again comes back unchanged |
| `Config.ValidMediaSanitized` | includes/Config.php:84-105 | the kept sources and posters are outputs of `esc_url_raw`, so an idempotent sanitizer leaves them alone |
| `Config.MediaRevalidates` | includes/Config.php:77-112 | a validated media list submitted again comes back unchanged |
| `Config.ValidateIdempotent` | includes/Config.php:73-159 | validating validated settings again changes nothing, given idempotent sanitizers |
| `Config.TimingRevalidates` | includes/Config.php:126-131 | validated durations and easing, submitted again, come back unchanged |
| `Config.MidRevalidates` | includes/Config.php:141-146 | validated middle-layer settings and overlay, submitted again, come back unchanged |
| `Config.TopRevalidates` | includes/Config.php:147-155 | sanitized top-layer strings, submitted again, come back unchanged |
| `Config.DefaultsValidate` | includes/Config.php:28-71 | the default settings pass validation unchanged |
| `Config.ParseFormatGrid` | includes/Config.php:260-271 | parsing `"{cols}x{rows}"` gives back cols and rows, and `get_grid_cells` is their product |
| `Config.ParseGridWithoutRows` | includes/Config.php:263-264 | a grid string without 'x' has columns `intval` of the whole string and the default 2 rows |
| `Config.AllowedGridCells` | includes/Config.php:268-271 | each allowed grid parses to 3 to 5 columns and 2 to 4 rows and has 6 to 20 cells; 5x3, 4x2 and 3x2 parse to their own numbers |
| `Render.MaxCells` | includes/Render.php:128-132 | the cap is the largest of the three devices' cell counts |
| `Render.SliceFront` | includes/Render.php:134 | `array_slice($a, 0, len)` is a prefix of length `min(len, n)`, or `n + len` for a negative length |
| `Render.TileOf` | includes/Render.php:141-171 | a tile keeps its index, type and source; it gets a poster exactly for a video with a non-empty poster |
| `Render.RenderedTiles` | includes/Render.php:121-139 | the rendered tiles are the first `MaxCells` media items, tile k from item k |
| `Render.MaxCellsRange` | includes/Render.php:128-132 | with allowed grids the cap lies between 6 and 20 |
| `Render.RenderedTileCount` | includes/Render.php:128-138 | `min(media count, cap)` tiles are rendered, taken from the front of the list |
| `Render.DefaultMaxCells` | includes/Render.php:128-132 | the default grids allow 15 tiles |
| `Render.CssTable` | includes/Render.php:183-202 | 18 properties, opening with `--nsmhs-display-duration`: first the four timing properties, then the five effect and overlay properties, then the grids |
| `Render.DeclarationsShape` | includes/Render.php:204-207 | the concatenation starts with the first property name and ends with "; " |
| `Render.TrimmedDeclarations` | includes/Render.php:204-209 | `trim` removes exactly the final space, so every declaration stays and the last ends in ';' |
| `Render.CssStringShape` | includes/Render.php:183-209 | the CSS string is every declaration in table order, ending in ';' and opening with the display duration |
| `Render.LeadingDeclaration` | includes/Render.php:204-209 | the trimmed string keeps the first property's name at its head |
| `Render.DurationsReadBack` | includes/Render.php:184-189 | reading the durations and the blur back with `intval` gives the stored values, despite the `ms` and `px` suffixes |
| `Render.AspectRatioReadsBack` | includes/Render.php:179-181 | the aspect ratio splits at '/' into `cols * 16` and `rows * 9` |
| `Render.JoinDeclarations` | includes/Render.php:204-209 | the loop appends `name: value; ` per property in order, then trims |
| `Render.GenerateCssVars` | includes/Render.php:173-210 | the result is the declarations of the table in order, minus the final space |
| `Render.RenderShowcase` | includes/Render.php:21-119 | empty media gives the placeholder and no hero; otherwise the hero carries the rendered tiles, the CSS string and the overlay's type and density |
| `Render.ValidatedRendersHero` | includes/Render.php:26-30 | settings whose validated media list is non-empty render a hero with at least one tile |
| `Render.Range` | includes/Render.php:229-232 | the left-to-right order is `[0, 1, ..., n - 1]` |
| `Render.RangeIsPermutation` | includes/Render.php:228-233 | the left-to-right order is a permutation of the cells |
| `Render.AppendMirroredRow` | includes/Render.php:221-226 | the inner loop appends row `row`'s cells, last column first, that pass the guard |
| `Render.MediaOrder` | includes/Render.php:218-233 | rtl gives the right-to-left walk, ltr the range; either way a permutation of the `cols * rows` cells |
| `Render.GetMediaOrder` | includes/Render.php:212-236 | the order of the desktop grid in the configured direction, a permutation of its cells |
| `Governor.EntityCount` | assets/js/overlays/constellation.js:56-58 | `table[density] \|\| table.medium`: one of the table's entries, and the medium entry for an unknown density |
| `Governor.GradedCounts` | assets/js/overlays/constellation.js:18-22 | in a table with positive rising entries, each known density reads its own entry, and no density reads zero |
| `Governor.OverlayCounts` | assets/js/overlays/constellation.js:18-22 | particles 40/80/140, polygons 3/5/8, waves 2/3/4 for low/medium/high |
| `Governor.Downgrade` | assets/js/overlays/constellation.js:137-148 | a step never improves either knob; it changes nothing exactly at the end of the ladder and otherwise uses up one step of slack; a change of ratio sets it to 1 and keeps the density |
| `Governor.DowngradeAction` | assets/js/overlays/constellation.js:137-148 | entities are regenerated exactly when the density changes, the canvas resized exactly when the ratio changes, nothing at the end |
| `Governor.DowngradeTimesMonotone` | assets/js/overlays/morph-polygons.js:150-161 | any number of downgrades never improves density or ratio |
| `Governor.LadderEnds` | assets/js/overlays/soft-waves.js:134-145 | at most three steps reach the end of the ladder, where a further step changes nothing |
| `Governor.DowngradeFixed` | assets/js/overlays/constellation.js:144-147 | downgrading at the end of the ladder any number of times changes nothing |
| `Governor.DowngradeFromTop` | assets/js/overlays/morph-polygons.js:150-161 | from high at ratio 2: medium, low, ratio 1, then no further change |
| `Governor.Sample` | assets/js/overlays/constellation.js:115-126 | each frame adds its cost and counts; on the 60th frame both accumulators reset, and a downgrade is asked only then |
| `Governor.FeedBelowWindow` | assets/js/overlays/soft-waves.js:112-123 | fewer than 60 frames only accumulate their costs, and no check happens |
| `Governor.FeedWindow` | assets/js/overlays/morph-polygons.js:128-139 | 60 frames end with a reset meter and one check, on the last frame, which downgrades iff they cost more than 1500 ms |
| `Governor.Backing` | assets/js/overlays/constellation.js:150-153 | the backing size is the product of box and ratio, truncated |
| `Governor.ResizeSettles` | assets/js/overlays/constellation.js:96-100 | on a box of whole pixels, right after a resize the check passes iff both products of size and ratio are whole numbers |
| `Governor.FractionalRatioResizesAgain` | assets/js/overlays/soft-waves.js:96-100 | a 101-pixel box at ratio 1.5 gets a 151-pixel canvas, which the next frame resizes again |
| `Governor.FractionalBoxResizesAgain` | assets/js/overlays/constellation.js:96-100 | a 100.5-pixel bounding box at ratio 2 gets a 201-pixel canvas, which a layout size of 101 or 100 resizes again every frame |
| `Governor.FractionalBoxSettles` | assets/js/overlays/constellation.js:96-100 | a 100.4-pixel bounding box with layout size 100 at ratio 1.5 gets the 150-pixel canvas the check asks for |
| `Governor.NextRequest` | assets/js/overlays/constellation.js:128-134 | under the cap a frame that took less than 33 ms defers by the rest of 33 ms; otherwise it requests a frame |
| `Governor.CancelFrame` | assets/js/overlays/constellation.js:171-176 | `cancelAnimationFrame(id)` removes exactly that frame and keeps every other callback |
| `Constellation.Reset` | assets/js/overlays/constellation.js:32-35 | a reset particle lies on the canvas and keeps its velocity |
| `Constellation.NewParticle` | assets/js/overlays/constellation.js:26-30 | a new particle lies on the canvas, with each velocity component within `speed / 4` of 0 |
| `Constellation.Wrap` | assets/js/overlays/constellation.js:42-45 | a coordinate below 0 jumps to the far edge and one beyond it to 0; one inside is kept; the result lies in [0, extent] |
| `Constellation.Move` | assets/js/overlays/constellation.js:37-46 | after `update` the particle is on the canvas with its velocity kept, and at its moved position when that is inside |
| `Constellation.Spawn` | assets/js/overlays/constellation.js:56-62 | `count` new particles, all on the canvas |
| `Constellation.ResetAll` | assets/js/overlays/constellation.js:159 | every particle reset in place: the same count, all on the canvas, velocities kept |
| `Constellation.MoveAll` | assets/js/overlays/constellation.js:106-109 | every particle moved: the same count, all on the canvas |
| `Constellation.ConnectionListDistinct` | assets/js/overlays/constellation.js:68-69 | no pair of particles is linked twice |
| `Constellation.LinksBelowClose` | assets/js/overlays/constellation.js:69-74 | the inner loop links particle i only to close particles after it |
| `Constellation.LinksBelowComplete` | assets/js/overlays/constellation.js:69-74 | the inner loop links particle i to every close particle after it |
| `Constellation.LinksBelowAscending` | assets/js/overlays/constellation.js:69 | the inner loop's links come in increasing order of the second particle |
| `Constellation.LinksUpToClose` | assets/js/overlays/constellation.js:68-86 | every link drawn by the first i rows joins two close particles |
| `Constellation.LinksUpToComplete` | assets/js/overlays/constellation.js:68-86 | every close pair whose first particle is among the first i is linked |
| `Constellation.LinksUpToOrdered` | assets/js/overlays/constellation.js:68-69 | the links come in row-major order of the pairs |
| `Constellation.LinksFrom` | assets/js/overlays/constellation.js:69-85 | the inner loop appends the links from particle i, in order |
| `Constellation.DrawConnections` | assets/js/overlays/constellation.js:64-87 | every pair i < j closer than `120 * ratio` is linked exactly once, in loop order, and no other pair is |
| `Constellation.Overlay.constructor` | assets/js/overlays/constellation.js:6-16 | `init`: stopped with nothing pending, an empty meter, the canvas sized from the box and the density's count of particles spawned (lines 185-187) |
| `Constellation.Overlay.InitParticles` | assets/js/overlays/constellation.js:56-62 | the particles are replaced by as many new ones as the current density asks |
| `Constellation.Overlay.Resize` | assets/js/overlays/constellation.js:150-160 | the canvas takes the box times the ratio; every particle gets a new position and there are as many as before |
| `Constellation.Overlay.Advance` | assets/js/overlays/constellation.js:106-109 | every particle is updated, and all stay on the canvas |
| `Constellation.Overlay.Downgrade` | assets/js/overlays/constellation.js:137-148 | the quality takes one step down the ladder, regenerating on a density change and resizing at ratio 1 on a ratio change; the particles and size left are `AfterDowngrade`'s |
| `Constellation.AfterDowngrade` | assets/js/overlays/constellation.js:137-148 | a density step leaves the lower density's count of particles on the same backing size; a ratio step keeps the count |
| `Constellation.Overlay.RequestFrame` | assets/js/overlays/constellation.js:133 | a new frame is queued and its id remembered |
| `Constellation.Overlay.Render` | assets/js/overlays/constellation.js:89-135 | when not running nothing is drawn or changed; otherwise the picture holds the particles relocated on the bounding box's backing size when the layout size times the ratio no longer matches, then moved by the elapsed time, with exactly the close pairs joined; the meter is fed and the next frame or cap timer queued; quality never rises; the particles and backing size left are the drawn particles on the fitted canvas, governed as `Governed` says, and a frame that does not run keeps them |
| `Constellation.Overlay.Step` | assets/js/overlays/constellation.js:92-134 | a running frame draws the particles relocated (when the resize check fires) and moved, with exactly the close pairs joined, feeds the meter and queues the next callback; the particles and backing size left are the drawn ones on the fitted canvas, put through the governor's downgrade when one is due |
| `Constellation.Overlay.Finish` | assets/js/overlays/constellation.js:114-134 | the governor, then the next request; after a downgrade the particles and backing size are those `Downgrade` leaves (new particles on the same canvas, or all reset on a canvas sized at ratio 1, or unchanged), otherwise they are kept |
| `Constellation.Overlay.Draw` | assets/js/overlays/constellation.js:96-112 | resize from the bounding box when the backing size differs from the layout size times the ratio, move every particle, and draw exactly the close pairs |
| `Constellation.Overlay.Govern` | assets/js/overlays/constellation.js:114-126 | the meter takes the frame; a downgrade happens only when the 60-frame check asks for one; after a downgrade the particles and backing size are those `Downgrade` leaves (new particles on the same canvas, or all reset on a canvas sized at ratio 1, or unchanged), otherwise they are kept |
| `Constellation.Overlay.Reschedule` | assets/js/overlays/constellation.js:128-134 | under the cap an early frame queues an untracked timer, otherwise a new frame with its id remembered |
| `Constellation.Overlay.FireCapDelay` | assets/js/overlays/constellation.js:129-131 | the cap timer requests a frame whether or not the overlay is running |
| `Constellation.Overlay.Start` | assets/js/overlays/constellation.js:162-169 | nothing when running or under reduced motion; otherwise running, with the first frame queued |
| `Constellation.Overlay.Stop` | assets/js/overlays/constellation.js:171-178 | not running, the remembered frame cancelled, the particles kept |
| `Constellation.Overlay.Destroy` | assets/js/overlays/constellation.js:180-183 | stopped, and no particles left |
| `Constellation.StopStartForksLoop` | assets/js/overlays/constellation.js:128-131 | after an early frame, `stop` then `start` leaves the cap timer and a new frame both pending |
| `Constellation.EarlyFrame` | assets/js/overlays/constellation.js:128-131 | a first frame at 16 ms leaves a 17 ms cap timer as the only pending callback |
| `Constellation.ReducedMotionNeverStarts` | assets/js/overlays/constellation.js:162-164 | under reduced motion `start` leaves the overlay stopped with nothing queued |
| `Constellation.ResizeKeepsCount` | assets/js/overlays/constellation.js:150-160 | a medium overlay has 80 particles before and after a resize |
| `MorphPolygons.BaseRadius` | assets/js/overlays/morph-polygons.js:30 | the base radius lies in [40, 120) times the ratio |
| `MorphPolygons.Sides` | assets/js/overlays/morph-polygons.js:27 | a polygon has 3 to 5 sides |
| `MorphPolygons.Noises` | assets/js/overlays/morph-polygons.js:38-41 | the vertex loop draws as many noise offsets as it is asked for |
| `MorphPolygons.NoisesBounded` | assets/js/overlays/morph-polygons.js:38-41 | every vertex noise lies in [0, 1000) |
| `MorphPolygons.Polygon` | assets/js/overlays/morph-polygons.js:26-42 | the side count is drawn first, and the polygon has one vertex noise per side |
| `MorphPolygons.PolygonFormed` | assets/js/overlays/morph-polygons.js:26-42 | a new polygon has 3 to 5 sides with one noise each, lies on the canvas with a radius in [40, 120) times the ratio, is turned by less than a full turn, and its noise speed is `speed * 0.001` |
| `MorphPolygons.SpawnNext` | assets/js/overlays/morph-polygons.js:100-102 | one more iteration appends the polygon drawn after all the others |
| `MorphPolygons.SpawnFormed` | assets/js/overlays/morph-polygons.js:97-103 | every spawned polygon is well shaped and placed on the canvas |
| `MorphPolygons.DrawsUsedBounds` | assets/js/overlays/morph-polygons.js:26-41 | each polygon consumes 11 to 13 random draws |
| `MorphPolygons.SpawnDrawsInOrder` | assets/js/overlays/morph-polygons.js:100-102 | the polygons take consecutive, disjoint runs of draws |
| `MorphPolygons.Relocate` | assets/js/overlays/morph-polygons.js:172-176 | a resize places the polygon on the canvas with a new radius and changes nothing else |
| `MorphPolygons.RelocateAll` | assets/js/overlays/morph-polygons.js:172-176 | a resize keeps the polygon count |
| `MorphPolygons.RelocateAllPlaced` | assets/js/overlays/morph-polygons.js:163-177 | after a resize every polygon is placed on the new canvas and keeps its shape |
| `MorphPolygons.Update` | assets/js/overlays/morph-polygons.js:44-47 | `update` changes only the rotation and the noise offset |
| `MorphPolygons.UpdateAdditive` | assets/js/overlays/morph-polygons.js:44-47 | two updates are one update by the summed time, and a zero step changes nothing |
| `MorphPolygons.UpdateAllEach` | assets/js/overlays/morph-polygons.js:122-125 | updating all polygons updates each one on its own |
| `MorphPolygons.Noise` | assets/js/overlays/morph-polygons.js:50-53 | the fractional part of `Math.sin(x) * 10000` lies in [0, 1) |
| `MorphPolygons.VertexRadiusBounds` | assets/js/overlays/morph-polygons.js:64-67 | a vertex radius varies by less than 10 times the ratio around the base, so 30 to 130 times the ratio for a placed polygon |
| `MorphPolygons.Outline` | assets/js/overlays/morph-polygons.js:61-77 | the vertex loop gives one radius per side, each within 10 times the ratio of the base |
| `MorphPolygons.NewPolygon` | assets/js/overlays/morph-polygons.js:26-42 | the constructor with its vertex loop builds the specified polygon |
| `MorphPolygons.MakePolygons` | assets/js/overlays/morph-polygons.js:97-103 | the loop of `initPolygons` builds the specified spawn |
| `MorphPolygons.UpdateAndOutline` | assets/js/overlays/morph-polygons.js:122-125 | each polygon is updated on its own, then outlined |
| `MorphPolygons.Fit` | assets/js/overlays/morph-polygons.js:112-116 | the resize check keeps the count; it changes nothing when the backing size matches the layout size times the ratio, and sizes the canvas to the bounding box otherwise |
| `MorphPolygons.Overlay.constructor` | assets/js/overlays/morph-polygons.js:6-16 | `init`: stopped with nothing pending, the canvas sized, the density's count of polygons spawned (lines 202-204) |
| `MorphPolygons.Overlay.InitPolygons` | assets/js/overlays/morph-polygons.js:97-103 | the polygons are replaced by as many new ones as the density asks |
| `MorphPolygons.Overlay.Resize` | assets/js/overlays/morph-polygons.js:163-177 | the canvas takes the box times the ratio, and every polygon is relocated |
| `MorphPolygons.Overlay.Downgrade` | assets/js/overlays/morph-polygons.js:150-161 | one step down the ladder, regenerating or rescaling as the step demands; the polygons and size left are `AfterDowngrade`'s |
| `MorphPolygons.AfterDowngrade` | assets/js/overlays/morph-polygons.js:150-161 | a density step leaves the lower density's count of polygons on the same backing size; a ratio step keeps the count |
| `MorphPolygons.Overlay.RequestFrame` | assets/js/overlays/morph-polygons.js:146 | a new frame is queued and its id remembered |
| `MorphPolygons.Overlay.Render` | assets/js/overlays/morph-polygons.js:105-148 | when not running nothing happens; otherwise (`RunFrame`, then the fired frame leaves the queue) the picture holds the polygons after the resize check, updated by the elapsed time and outlined at the ratio; the meter is fed and the next callback queued; quality never rises; the polygons and backing size left are the drawn ones on the fitted canvas, governed as `Governed` says, and a frame that does not run keeps them |
| `MorphPolygons.Overlay.RunFrame` | assets/js/overlays/morph-polygons.js:108-147 | a running frame draws (`Step`), feeds the meter and queues the next callback; the polygons and backing size left are the drawn ones on the fitted canvas, put through the governor's downgrade when one is due |
| `MorphPolygons.Overlay.Step` | assets/js/overlays/morph-polygons.js:108-125 | a running frame takes the time, then draws the polygons after the resize check, updated by the elapsed time and outlined; the count is kept; the polygons and backing size left are exactly the drawn polygons on the fitted canvas |
| `MorphPolygons.Overlay.Finish` | assets/js/overlays/morph-polygons.js:127-147 | the governor, then the next request; after a downgrade the polygons and backing size are those `Downgrade` leaves (a new set on the same canvas, or all rescaled on a canvas sized at ratio 1, or unchanged), otherwise they are kept |
| `MorphPolygons.Overlay.Draw` | assets/js/overlays/morph-polygons.js:112-125 | resize when needed, then update and outline every polygon |
| `MorphPolygons.Overlay.FitCanvas` | assets/js/overlays/morph-polygons.js:112-116 | the state after the resize check is the one `Fit` specifies |
| `MorphPolygons.Overlay.Govern` | assets/js/overlays/morph-polygons.js:127-139 | the meter takes the frame; a downgrade happens only when the check asks; after a downgrade the polygons and backing size are those `Downgrade` leaves (a new set on the same canvas, or all rescaled on a canvas sized at ratio 1, or unchanged), otherwise they are kept |
| `MorphPolygons.Overlay.Reschedule` | assets/js/overlays/morph-polygons.js:141-147 | an early capped frame queues an untracked timer, otherwise a remembered frame |
| `MorphPolygons.Overlay.FireCapDelay` | assets/js/overlays/morph-polygons.js:142-144 | the cap timer requests a frame, running or not |
| `MorphPolygons.Overlay.Start` | assets/js/overlays/morph-polygons.js:179-186 | no change when running or under reduced motion; otherwise running with the first frame queued |
| `MorphPolygons.Overlay.Stop` | assets/js/overlays/morph-polygons.js:188-195 | not running, the remembered frame cancelled, the polygons kept |
| `MorphPolygons.Overlay.Destroy` | assets/js/overlays/morph-polygons.js:197-200 | stopped, with no polygons left |
| `MorphPolygons.RegenerateOnDowngrade` | assets/js/overlays/morph-polygons.js:150-156 | a high overlay has 8 polygons, 5 after one downgrade, 3 after two |
| `SoftWaves.Amplitude` | assets/js/overlays/soft-waves.js:27 | the amplitude lies in [20, 50) times the ratio |
| `SoftWaves.Pace` | assets/js/overlays/soft-waves.js:30 | a wave's speed lies between half the setting and the setting |
| `SoftWaves.MakeWave` | assets/js/overlays/soft-waves.js:26-34 | wave i sits on row `height * (0.2 + 0.25 i)`, with amplitude in [20, 50) times the ratio, a phase below a full turn, and direction 1 exactly when its draw exceeds 0.5, else -1 |
| `SoftWaves.RowClosedForm` | assets/js/overlays/soft-waves.js:31 | the row of layer i is `height * (0.2 + 0.25 i)` |
| `SoftWaves.SpawnAt` | assets/js/overlays/soft-waves.js:84-86 | wave i of `initWaves` is made for layer i from its own six draws |
| `SoftWaves.SpawnFormed` | assets/js/overlays/soft-waves.js:81-87 | every new wave is well shaped and on the row of its index |
| `SoftWaves.Relayer` | assets/js/overlays/soft-waves.js:156-159 | a resize moves wave i to row i of the new canvas with a new amplitude, and changes nothing else |
| `SoftWaves.RelayerAllEach` | assets/js/overlays/soft-waves.js:156-159 | the resize loop relays each wave on its own, by its index |
| `SoftWaves.RelayerAllLayered` | assets/js/overlays/soft-waves.js:147-160 | after a resize every wave sits on its row of the new canvas and keeps its shape |
| `SoftWaves.Update` | assets/js/overlays/soft-waves.js:36-38 | `update` changes only the phase offset |
| `SoftWaves.UpdateAdditive` | assets/js/overlays/soft-waves.js:36-38 | two updates are one update by the summed time, and a zero step changes nothing |
| `SoftWaves.UpdateDrifts` | assets/js/overlays/soft-waves.js:37 | with positive speed and time, the offset grows for direction 1 and shrinks for -1 |
| `SoftWaves.UpdateAllEach` | assets/js/overlays/soft-waves.js:106-109 | updating all waves updates each one on its own |
| `SoftWaves.CrestBounds` | assets/js/overlays/soft-waves.js:54 | where the sine lies in [-1, 1], the line stays within one amplitude of the row |
| `SoftWaves.Trace` | assets/js/overlays/soft-waves.js:69-72 | the line loop gives one point per second pixel up to the width, each at the wave's height there |
| `SoftWaves.MakeWaves` | assets/js/overlays/soft-waves.js:81-87 | the loop of `initWaves` builds the specified spawn |
| `SoftWaves.UpdateAndTrace` | assets/js/overlays/soft-waves.js:106-109 | each wave is updated on its own, then traced |
| `SoftWaves.Fit` | assets/js/overlays/soft-waves.js:96-100 | the resize check keeps the count; it changes nothing when the backing size matches the layout size times the ratio, and sizes the canvas to the bounding box otherwise |
| `SoftWaves.Overlay.constructor` | assets/js/overlays/soft-waves.js:6-16 | `init`: stopped with nothing pending, the canvas sized, the density's count of waves made (lines 185-187) |
| `SoftWaves.Overlay.InitWaves` | assets/js/overlays/soft-waves.js:81-87 | the waves are replaced by as many new ones as the density asks |
| `SoftWaves.Overlay.Resize` | assets/js/overlays/soft-waves.js:147-160 | the canvas takes the box times the ratio, and every wave moves to its new row |
| `SoftWaves.Overlay.Downgrade` | assets/js/overlays/soft-waves.js:134-145 | one step down the ladder, regenerating or rescaling as the step demands; the waves and size left are `AfterDowngrade`'s |
| `SoftWaves.AfterDowngrade` | assets/js/overlays/soft-waves.js:134-145 | a density step leaves the lower density's count of waves on the same backing size; a ratio step keeps the count |
| `SoftWaves.Overlay.RequestFrame` | assets/js/overlays/soft-waves.js:130 | a new frame is queued and its id remembered |
| `SoftWaves.Overlay.Render` | assets/js/overlays/soft-waves.js:89-132 | when not running nothing happens; otherwise (`RunFrame`, then the fired frame leaves the queue) the picture holds the waves after the resize check, updated by the elapsed time and traced across the canvas width; the meter is fed and the next callback queued; quality never rises; the waves and backing size left are the drawn ones on the fitted canvas, governed as `Governed` says, and a frame that does not run keeps them |
| `SoftWaves.Overlay.RunFrame` | assets/js/overlays/soft-waves.js:92-131 | a running frame draws (`Step`), feeds the meter and queues the next callback; the waves and backing size left are the drawn ones on the fitted canvas, put through the governor's downgrade when one is due |
| `SoftWaves.Overlay.Step` | assets/js/overlays/soft-waves.js:92-109 | a running frame takes the time, then draws the waves after the resize check, updated by the elapsed time and traced; the count is kept; the waves and backing size left are exactly the drawn waves on the fitted canvas |
| `SoftWaves.Overlay.Finish` | assets/js/overlays/soft-waves.js:111-131 | the governor, then the next request; after a downgrade the waves and backing size are those `Downgrade` leaves (a new set on the same canvas, or all rescaled on a canvas sized at ratio 1, or unchanged), otherwise they are kept |
| `SoftWaves.Overlay.Draw` | assets/js/overlays/soft-waves.js:96-109 | resize when needed, then update and trace every wave |
| `SoftWaves.Overlay.FitCanvas` | assets/js/overlays/soft-waves.js:96-100 | the state after the resize check is the one `Fit` specifies |
| `SoftWaves.Overlay.Govern` | assets/js/overlays/soft-waves.js:111-123 | the meter takes the frame; a downgrade happens only when the check asks; after a downgrade the waves and backing size are those `Downgrade` leaves (a new set on the same canvas, or all rescaled on a canvas sized at ratio 1, or unchanged), otherwise they are kept |
| `SoftWaves.Overlay.Reschedule` | assets/js/overlays/soft-waves.js:125-131 | an early capped frame queues an untracked timer, otherwise a remembered frame |
| `SoftWaves.Overlay.FireCapDelay` | assets/js/overlays/soft-waves.js:126-128 | the cap timer requests a frame, running or not |
| `SoftWaves.Overlay.Start` | assets/js/overlays/soft-waves.js:162-169 | no change when running or under reduced motion; otherwise running with the first frame queued |
| `SoftWaves.Overlay.Stop` | assets/js/overlays/soft-waves.js:171-178 | not running, the remembered frame cancelled, the waves kept |
| `SoftWaves.Overlay.Destroy` | assets/js/overlays/soft-waves.js:180-183 | stopped, with no waves left |
| `SoftWaves.ResizeMovesRows` | assets/js/overlays/soft-waves.js:147-159 | four waves on a 400-pixel canvas sit at 80, 180, 280 and 380, and at 40, 90, 140 and 190 after a resize to 200 pixels |
| `Sequencer.PresentContents` | assets/js/frontend.js:88-96 | the tile filter keeps exactly the elements with media or a poster, in document order, each numbered by its position |
| `Sequencer.RtlInRange` | assets/js/frontend.js:113-115 | the walk only reads tiles that exist |
| `Sequencer.RtlOrderContents` | assets/js/frontend.js:104-120 | the reorder keeps `min(tiles, cols * rows)` tiles, and every tile when the grid has room for all |
| `Sequencer.RtlOrderThreeByTwo` | assets/js/frontend.js:104-120 | six tiles on a 3 x 2 grid play as 2, 1, 0, 5, 4, 3 |
| `Sequencer.GridReadBack` | assets/js/frontend.js:107-108 | the frontend reads back the desktop grid the server wrote, except that 0 falls back to 5 columns or 3 rows |
| `Sequencer.Schedule` | assets/js/frontend.js:258 | a new timer leaves the tiles, the playing flag, the environment and the cursor alone |
| `Sequencer.Without` | assets/js/frontend.js:179 | `clearTimeout` removes exactly the timers with that id |
| `Sequencer.ClearTimeout` | assets/js/frontend.js:178-181 | clearing the remembered timer touches neither the tiles, the flags nor the cursor |
| `Sequencer.ResetZoom` | assets/js/frontend.js:342-354 | the zoom display is cleared and nothing else changes |
| `Sequencer.NextTile` | assets/js/frontend.js:219-226 | paused, stopped or empty: nothing changes; otherwise the current tile is zoomed into (entering), a 50 ms settle timer is armed for it and the cursor moves on cyclically; the tiles and the playing flag stay |
| `Sequencer.StartAnimation` | assets/js/frontend.js:167-174 | already playing: nothing changes; otherwise playing and unpaused from tile 0 — the first tile is zoomed into with its settle timer and the cursor is at 1 mod the tile count (0 and no timer with no tiles) |
| `Sequencer.Pause` | assets/js/frontend.js:176-183 | paused, with no remembered timer, and the tiles, playing flag, zoom and cursor kept |
| `Sequencer.Resume` | assets/js/frontend.js:185-190 | nothing changes unless paused and visible; then unpaused, and when playing with tiles the current tile is zoomed into and the cursor advances |
| `Sequencer.Stop` | assets/js/frontend.js:208-217 | stopped: neither playing nor paused, no remembered timer, the zoom inactive and idle, the remembered timer (and only it) cancelled, the tiles and cursor kept |
| `Sequencer.Settled` | assets/js/frontend.js:258-277 | paused: nothing changes; otherwise the zoom is full for the entering duration and the hold timer for the display duration is armed and remembered |
| `Sequencer.ZoomOut` | assets/js/frontend.js:280-300 | paused: nothing changes; otherwise the zoom is leaving for the leaving duration and a zoom-out-end timer for that duration is armed |
| `Sequencer.ZoomedOut` | assets/js/frontend.js:294-299 | the zoom is reset to inactive and idle; a 100 ms gap timer is armed and remembered exactly when unpaused and playing, otherwise the timers stay |
| `Sequencer.Fire` | assets/js/frontend.js:258-299 | any timer coming due keeps the cursor valid and the setup unchanged; while paused every callback but the zoom-out end only consumes its timer |
| `Sequencer.OnIntersection` | assets/js/frontend.js:122-139 | the viewport observer keeps the cursor valid |
| `Sequencer.ScheduleNumbered` | assets/js/frontend.js:258 | a new timer gets a fresh id |
| `Sequencer.TrackNumbered` | assets/js/frontend.js:272-275 | remembering a hold or gap timer keeps `timeoutId` on a tracked timer |
| `Sequencer.ClearNumbered` | assets/js/frontend.js:178-181 | clearing the remembered timer keeps the ids consistent |
| `Sequencer.RemoveNumbered` | assets/js/frontend.js:258-299 | a timer that has fired no longer counts as pending, and the ids stay consistent |
| `Sequencer.NextTileValid` | assets/js/frontend.js:219-226 | `nextTile` keeps the invariant |
| `Sequencer.SettledValid` | assets/js/frontend.js:258-277 | the settle callback keeps the invariant |
| `Sequencer.ZoomOutValid` | assets/js/frontend.js:280-300 | `zoomOut` keeps the invariant |
| `Sequencer.ZoomedOutValid` | assets/js/frontend.js:294-299 | the zoom-out callback keeps the invariant |
| `Sequencer.FireValid` | assets/js/frontend.js:258-299 | any timer coming due keeps the invariant |
| `Sequencer.PauseValid` | assets/js/frontend.js:176-183 | `pauseAnimation` keeps the invariant |
| `Sequencer.ResumeValid` | assets/js/frontend.js:185-190 | `resumeAnimation` keeps the invariant |
| `Sequencer.StopValid` | assets/js/frontend.js:208-217 | `stopAnimation` keeps the invariant |
| `Sequencer.StartOverlayValid` | assets/js/frontend.js:453-457 | `startOverlay` never runs an overlay under reduced motion |
| `Sequencer.StopOverlayValid` | assets/js/frontend.js:459-463 | `stopOverlay` keeps the invariant |
| `Sequencer.IntersectionValid` | assets/js/frontend.js:122-139 | the viewport observer keeps the invariant |
| `Sequencer.VisibilityValid` | assets/js/frontend.js:141-152 | the tab listener keeps the invariant |
| `Sequencer.MotionValid` | assets/js/frontend.js:154-165 | the reduced-motion listener keeps the invariant |
| `Sequencer.ResizeValid` | assets/js/frontend.js:192-202 | the resize observer keeps the invariant |
| `Sequencer.LoadedValid` | assets/js/frontend.js:365-419 | loading the overlay keeps the invariant |
| `Sequencer.DestroyValid` | assets/js/frontend.js:465-475 | `destroy` keeps the invariant |
| `Sequencer.StepValid` | assets/js/frontend.js:122-202 | every browser event keeps the invariant: tiles as collected, a valid cursor, fresh timer ids, and no overlay running under reduced motion |
| `Sequencer.InitialValid` | assets/js/frontend.js:17-86 | construction establishes the invariant |
| `Sequencer.InitialState` | assets/js/frontend.js:66-86 | without the zoom layers nothing is set up; with tiles the sequence starts at once on tile 0, with a 50 ms settle timer, even before the hero is visible |
| `Sequencer.SettleStep` | assets/js/frontend.js:258-277 | the settle timer grows the clone to full size over the zoom-in duration (300 ms under reduced motion) and arms a remembered hold of `displayDuration` |
| `Sequencer.HoldStep` | assets/js/frontend.js:272-289 | the hold timer fades the clone out over the zoom-out duration (300 ms under reduced motion) with an untracked timer |
| `Sequencer.ZoomOutEndStep` | assets/js/frontend.js:294-299 | the zoom-out timer clears the display and, while playing and unpaused, arms a remembered 100 ms gap |
| `Sequencer.GapStep` | assets/js/frontend.js:219-226 | the gap timer zooms to the current tile and moves the cursor on by one, wrapping |
| `Sequencer.OneCycle` | assets/js/frontend.js:228-299 | four undisturbed timers take the showcase from one settling tile to the next, cursor advanced by one |
| `Sequencer.IntersectionNeverSchedules` | assets/js/frontend.js:122-139 | the viewport observer never adds a timer, never changes the playing flag or the cursor, and leaves a paused sequence paused |
| `Sequencer.Scroll` | assets/js/frontend.js:122-139 | any run of viewport reports keeps the cursor valid |
| `Sequencer.ScrollNeverResumes` | assets/js/frontend.js:126-131 | once paused by scrolling out of view, no amount of scrolling resumes the sequence |
| `Sequencer.TabReturnResumes` | assets/js/frontend.js:141-152 | coming back to the tab resumes a paused, visible showcase at its current tile |
| `Sequencer.PauseKeepsUntracked` | assets/js/frontend.js:176-183 | pausing cancels only the remembered timer; settle and zoom-out timers stay pending |
| `Sequencer.HideShowForks` | assets/js/frontend.js:258-297 | hiding and showing the tab while a settle or zoom-out timer is pending leaves two zoom chains pending |
| `Sequencer.StaleSettleAfterStop` | assets/js/frontend.js:258-277 | a settle timer that fires after `stopAnimation` still grows its tile to full size and arms a hold |
| `Sequencer.PlayingOnlyStopsOnDestroy` | assets/js/frontend.js:208-210 | once set up, only `destroy` changes whether the sequence plays |
| `Sequencer.ReducedStylesSticky` | assets/js/frontend.js:356-363 | the reduced-motion custom properties, once written, are never taken back |
| `Sequencer.OverlaySnapshotSticks` | assets/js/frontend.js:397-411 | an overlay made under reduced motion never runs, whatever event follows |
| `Sequencer.FrozenOverlay` | assets/js/frontend.js:453-463 | neither `startOverlay` nor `stopOverlay` thaws such an overlay |
| `Sequencer.DestroyedOverlayRestarts` | assets/js/frontend.js:465-475 | after `destroy`, coming back to the tab starts the destroyed overlay again |
| `Frontend.RunTilesIsPick` | assets/js/frontend.js:112-117 | one row as the inner loop takes it is that row's existing cells, last column first |
| `Frontend.WalkTilesIsPick` | assets/js/frontend.js:111-119 | the two loops pick the tiles at the right-to-left walk's existing cells |
| `Frontend.Showcase.constructor` | assets/js/frontend.js:17-64 | the embedded settings, or the 3000/900/700 ms defaults when there are none; then the state `Initial` describes |
| `Frontend.Showcase.Init` | assets/js/frontend.js:66-86 | from the blank fields, `init` reaches the state `Initial` describes |
| `Frontend.Showcase.CollectTiles` | assets/js/frontend.js:88-102 | the tiles are the shown elements, reordered right to left when the order says so |
| `Frontend.Showcase.CalculateRtlOrder` | assets/js/frontend.js:104-120 | the nested loops produce the right-to-left order of the tiles |
| `Frontend.Showcase.WalkRows` | assets/js/frontend.js:111-119 | the outer loop concatenates the mirrored rows |
| `Frontend.Showcase.MirroredRowTiles` | assets/js/frontend.js:112-117 | the inner loop picks one row's existing tiles, last column first |
| `Frontend.Showcase.SetTimeout` | assets/js/frontend.js:272-275 | a timer is queued under the next id, which is returned |
| `Frontend.Showcase.ClearTimeout` | assets/js/frontend.js:178-181 | the remembered timer is cancelled and forgotten |
| `Frontend.Showcase.StartAnimation` | assets/js/frontend.js:167-174 | the object changes as `startAnimation` specifies |
| `Frontend.Showcase.PauseAnimation` | assets/js/frontend.js:176-183 | the object changes as `pauseAnimation` specifies |
| `Frontend.Showcase.ResumeAnimation` | assets/js/frontend.js:185-190 | the object changes as `resumeAnimation` specifies |
| `Frontend.Showcase.StopAnimation` | assets/js/frontend.js:208-217 | the object's state becomes `Sequencer.Stop` of the old state: not playing, not paused, no remembered timer, zoom reset |
| `Frontend.Showcase.NextTile` | assets/js/frontend.js:219-226 | the object changes as `nextTile` specifies |
| `Frontend.Showcase.ZoomToTile` | assets/js/frontend.js:228-278 | the clone is shown and a 50 ms settle timer queued |
| `Frontend.Showcase.SettleCallback` | assets/js/frontend.js:258-277 | the object changes as the settle callback specifies |
| `Frontend.Showcase.ZoomOut` | assets/js/frontend.js:280-300 | the object changes as `zoomOut` specifies |
| `Frontend.Showcase.ZoomOutEnded` | assets/js/frontend.js:294-299 | the object changes as the zoom-out callback specifies |
| `Frontend.Showcase.ResetZoom` | assets/js/frontend.js:342-354 | only the zoom display changes |
| `Frontend.Showcase.Fire` | assets/js/frontend.js:258-299 | a pending timer comes due and its callback runs |
| `Frontend.Showcase.StartOverlay` | assets/js/frontend.js:453-457 | the overlay starts only when present, motion is welcome and the hero is visible |
| `Frontend.Showcase.StopOverlay` | assets/js/frontend.js:459-463 | the overlay, if any, is stopped |
| `Frontend.Showcase.OnOverlayLoaded` | assets/js/frontend.js:365-419 | the overlay instance is made, and started when visible and motion is welcome |
| `Frontend.Showcase.OnIntersection` | assets/js/frontend.js:123-133 | the object changes as the viewport observer specifies |
| `Frontend.Showcase.OnVisibilityChange` | assets/js/frontend.js:142-151 | the object changes as the tab listener specifies |
| `Frontend.Showcase.OnMotionChange` | assets/js/frontend.js:156-164 | the object changes as the reduced-motion listener specifies |
| `Frontend.Showcase.OnResize` | assets/js/frontend.js:194-199 | the object changes as the resize observer specifies |
| `Frontend.Showcase.Destroy` | assets/js/frontend.js:465-475 | the object changes as `destroy` specifies |
| `Frontend.Showcase.Handle` | assets/js/frontend.js:122-202 | any browser event changes the object as `Step` specifies, and keeps the invariant |

## Left out

- Video playback is not modelled, because it needs a browser: `createMediaClone`, `startMediaPlayback`, `pauseAllVideos`, autoplay and its failure.
- The zoom display's styling is not modelled: the `nsmhs-zooming` class, the transform, scale, opacity and blur strings, and the zoom-scale geometry. The display is an abstract active/stage/content state.
- `applyOverlaySettings` is not modelled: the CSS-only overlays (animated gradient, dots, tiles) and the `--nsmhs-overlay-alpha` property, whose 0.6 fallback is styling only.
- The overlay's window `resize` listener is not modelled; a resize reaches an overlay only through the size check in `render`. `destroy` removes that listener with a fresh bound function, which removes nothing.
- `initShowcases` and the `MutationObserver` are not modelled: each showcase is constructed once with a fixed page snapshot.
- The overlay's `parseFloat` of the data attributes is not modelled: an overlay receives its speed and density as parameters. Opacity and blend mode affect only drawing.
- Drawing on the canvas is not modelled: colours, gradients, arcs, line widths and line alpha. A frame's picture is what would be drawn: particle positions and links, polygon vertex radii, wave points.
- Floating-point arithmetic is modelled with exact reals. `Math.sin`, `Math.random`, `performance.now` and measured frame costs are parameters.
- Entities are values in a sequence that a method reassigns, not shared objects updated in place. No other code holds a reference to them.
- `Sequencer.CssInt` reads the grid properties with `Text.LeadingInt`: JavaScript whitespace (white space and line terminators, the no-break space among them), a sign and the leading digits, as `parseInt` with radix 10 does. A `0x` prefix, which `parseInt` without a radix reads as hexadecimal, is not modelled; the server writes plain decimal integers (`Sequencer.GridReadBack`).
- Settings JSON that does not parse counts the same as missing settings (`embedded == None`). Only `order` and the three durations are read from it.
- `get_settings` is not modelled: `wp_parse_args` appears only as the default empty media list (`Render.StoredMedia`). `save_settings`, `ajax_save_settings` and `ajax_get_settings` are left out because they are WordPress persistence and permission checks.
- `validate_logo_id` and `validate_logo_url` are left out, because they call WordPress attachment lookups; so are the logo fields and `render_logo`.
- `Text.FloatVal`: a number is an exact real, not a 64-bit float, so rounding of long fractions and huge exponents is not modelled; hexadecimal, `INF` and `NAN` strings are not numeric to PHP and read as 0 here too.
- `esc_url_raw` and `sanitize_text_field` are uninterpreted. The idempotence lemmas assume only that both are idempotent.
- The markup strings of `render_showcase` (attributes, escaping, `uniqid`, full-viewport and logo-position classes) are not modelled. The hero is summarised by its tiles, CSS string and overlay attributes. The formatting of real numbers in the CSS string is a parameter `fmt`.
- `parse_grid`'s `?? 3` fallback for the columns never applies, since `explode` always yields a first piece. The model has no branch for it.
- Tablet and phone grids are used only on the server. The frontend reads only the desktop grid properties.
- The editor, block, shortcode, admin page and plugin bootstrap files are WordPress registration and UI, and are not modelled.
- `Governor.Backing`: does not model the wrap-around of a canvas size beyond the range of an unsigned 32-bit integer, because no element box comes near it.
- `Text.IntVal`: does not model PHP's saturation at `PHP_INT_MAX`, nor the undefined result of converting a float beyond the 64-bit range to an integer (for example "1e30"), because the integers are unbounded; the model gives the exact truncated value. For a numeric string the saturated value lies on the same side of every clamp bound as the exact one, so the stored duration is the same. For a JSON float beyond the 64-bit range PHP's conversion is undefined (in practice it wraps), so the stored value can be the opposite bound from the one the model gives.
- `Config.AllowListed`: the model stores the corrected strict result, a string on the list or the fallback. The loose test as written, which can store `true`, a number or null, is `Config.AllowListedAsWritten` (see Findings).
- `Config.ValidateItem`: a `type` or `mime` that is a boolean or a number loosely equal to an entry is stored as it came by the code as written; the model keeps only strings on the list (`Config.AllowListCorrection`).
- `Config.ValidateGrids`: a grid given as `true`, or as a number loosely equal to an entry, is stored as it came by the code as written; the model falls back to the default grid.
- `Config.ValidateOrder`: an order given as `true` or `0` is stored as it came by the code as written; the model falls back to 'ltr'.
- `Config.ValidateOverlay`: a type, density or blend mode given as `true` or `0` is stored as it came by the code as written; the model falls back to constellation, medium or normal.
- `Config.LooseEquals`: is PHP 7's loose equality. Under PHP 8 a number never equals a non-numeric string, so `0` and `5` pass no allow-list there; only `true` does. The model does not give the PHP 8 comparison.
- `Config.ValidateSettings`: uses the corrected allow-list test and the corrected middle pattern, so it never stores a boolean, a number or null where the code as written would; the differences are stated by `Config.AllowListCorrection` and `Config.MiddlePatternMissingKey`.

## Findings

| source | as written | input that shows it | evidently intended | confidence | as-written member | corrected member |
|---|---|---|---|---|---|---|
| includes/Config.php:143 | a missing `middlePattern` passes the allow-list test through `?? 'none'`, but the missing key itself is returned, so the stored pattern is null | settings whose `layers.mid` has no `middlePattern` | a missing pattern falls back to 'none', as the default settings and the allow-list say | high (not executed) | `Config.ValidateMiddlePatternAsWritten`, `Config.MiddlePatternMissingKey` | `Config.ValidateMiddlePattern` |
| includes/Config.php:117-123 | the allow-list tests use loose `in_array` and then store the input as it came, so a JSON `true` passes every list (and under PHP 7 also `0` passes the order list, `5` the grid list) and is stored as a boolean or number | settings `{"order": true}` or `{"grids": {"pc": true}}`; a grid stored as `true` later parses as one column and two rows, a grid off the list | only a string on the list is stored, anything else becomes the default | medium (not executed) | `Config.AllowListedAsWritten`, `Config.LooseAllowListStoresNonStrings`, `Config.TrueGridOffList` | `Config.AllowListed`, `Config.AllowListCorrection` |
