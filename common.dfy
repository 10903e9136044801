/** Small shared vocabulary: optional values, random draws and media kinds. */
module Common {

  /** A value that may be absent (a missing key, a null handle, NaN from a parse). */
  datatype Option<T> = None | Some(value: T)

  /** One result of `Math.random()`: a real in [0, 1). */
  type Unit = r: real | 0.0 <= r < 1.0

  /** An unlimited supply of `Math.random()` results; draw `k` is `d(k)`. */
  type Draws = nat -> Unit

  /** The draws of `d` starting at position `k`. */
  function Shift(d: Draws, k: nat): Draws
  {
    (n: nat) => d(k + n)
  }

  /** A draw scaled to a non-negative extent lies in `[0, extent)`, or is 0 on an empty extent. */
  lemma ScaledDraw(u: Unit, extent: real)
    requires extent >= 0.0
    ensures 0.0 <= u * extent <= extent
    ensures extent > 0.0 ==> u * extent < extent
  {
    assert (1.0 - u) * extent >= 0.0;
    if extent > 0.0 {
      assert (1.0 - u) * extent > 0.0;
    }
  }

  /** A draw scaled to a non-negative extent, as in `Math.random() * canvas.width`. */
  function Scaled(u: Unit, extent: real): (r: real)
    requires extent >= 0.0
    ensures 0.0 <= r <= extent && (extent > 0.0 ==> r < extent)
  {
    ScaledDraw(u, extent);
    u * extent
  }

  /** `(u - 0.5) * 0.5 * speed` lies within a quarter of `speed` either side of 0. */
  lemma CenteredDraw(u: Unit, speed: real)
    requires speed >= 0.0
    ensures -speed / 4.0 <= (u - 0.5) * 0.5 * speed <= speed / 4.0
  {
    assert (u - 0.5) * 0.5 * speed == (u * speed - 0.5 * speed) * 0.5;
    ScaledDraw(u, speed);
  }

  /** A non-negative length such as a bounding-box width. */
  type Extent = r: real | r >= 0.0

  /** The two kinds of media a tile can hold. */
  datatype MediaKind = Image | Video

  function Min(a: int, b: int): int { if a <= b then a else b }
  function Max(a: int, b: int): int { if a >= b then a else b }

  /** `s` without its `k`-th element. */
  function RemoveAt<T>(s: seq<T>, k: nat): (r: seq<T>)
    requires k < |s|
    ensures |r| == |s| - 1
    ensures forall x :: x in r ==> x in s
  {
    s[..k] + s[k + 1..]
  }

  /** Removing an element before one appended is the same as removing it first. */
  lemma RemoveAtAppend<T>(s: seq<T>, k: nat, x: T)
    requires k < |s|
    ensures RemoveAt(s + [x], k) == RemoveAt(s, k) + [x]
  {
    assert (s + [x])[..k] == s[..k];
    assert (s + [x])[k + 1..] == s[k + 1..] + [x];
  }
}
