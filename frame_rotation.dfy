/**
 * The luminance-frame rotator of the ZXing analyzer: a single-byte image plane
 * is turned by a quarter, a half or three quarters of a turn into a freshly
 * allocated buffer, and the holder's bytes and dimensions are replaced.
 *
 * `Rotate` is the reference definition (what the holder describes after one
 * call); `RotateImageArray` is the nested loop that fills the new buffer,
 * proved to produce exactly that.
 */
module FrameRotation {

  /** One image plane: bytes in row-major order with the plane's dimensions. */
  datatype Plane = Plane(bytes: seq<bv8>, width: nat, height: nat)

  /** The two early-return guards let the angle through. */
  predicate PassesGuards(deg: int) {
    deg != 0 && deg % 90 == 0
  }

  /** The angles the inner `when` has a branch for. */
  predicate Supported(deg: int) {
    deg == 90 || deg == 180 || deg == 270
  }

  /** Destination index written for the source pixel at column x, row y. */
  function DstIndex(deg: int, x: int, y: int, w: int, h: int): int {
    if deg == 90 then x * h + h - y - 1
    else if deg == 180 then w * (h - y - 1) + w - x - 1
    else y + x * h
  }

  /** Source index read for that same pixel (the 270 branch reads a mirrored column). */
  function SrcIndex(deg: int, x: int, y: int, w: int, h: int): int {
    if deg == 270 then y * w + w - x - 1 else x + y * w
  }

  /** Column of the pixel whose destination is d. */
  function InvX(deg: int, d: int, w: int, h: int): int
    requires 0 < w && 0 < h
  {
    if deg == 180 then w - 1 - d % w else d / h
  }

  /** Row of the pixel whose destination is d. */
  function InvY(deg: int, d: int, w: int, h: int): int
    requires 0 < w && 0 < h
  {
    if deg == 90 then h - 1 - d % h
    else if deg == 180 then h - 1 - d / w
    else d % h
  }

  // ---------------------------------------------------------------------
  // Integer facts used by the index proofs

  lemma MulAtLeast(k: int, n: int)
    requires 1 <= k && 0 <= n
    ensures n <= k * n
  {
    assert k * n == (k - 1) * n + n;
  }

  lemma DivModOf(q: int, r: int, n: int)
    requires 0 <= q && 0 <= r < n
    ensures (q * n + r) / n == q && (q * n + r) % n == r
  {
    var d := q * n + r;
    var q', r' := d / n, d % n;
    assert d == q' * n + r' && 0 <= r' < n;
    if q' > q {
      assert q' * n == (q' - q) * n + q * n;
      MulAtLeast(q' - q, n);
    } else if q' < q {
      assert q * n == (q - q') * n + q' * n;
      MulAtLeast(q - q', n);
    }
  }

  lemma RowBelow(a: int, r: int, n: int, m: int)
    requires 0 <= a < m && 0 <= r < n
    ensures 0 <= a * n + r < m * n
  {
    assert (a + 1) * n <= m * n;
  }

  lemma QuotBelow(d: int, n: int, m: int)
    requires 0 < n && 0 <= d < m * n
    ensures 0 <= d / n < m
  {
  }

  // ---------------------------------------------------------------------
  // The index map is a bijection of [0, w*h)

  /** Every in-range pixel reads and writes below w*h, and (InvX, InvY) recovers it. */
  lemma LeftInverse(deg: int, x: int, y: int, w: int, h: int)
    requires Supported(deg) && 0 <= x < w && 0 <= y < h
    ensures 0 <= DstIndex(deg, x, y, w, h) < w * h
    ensures 0 <= SrcIndex(deg, x, y, w, h) < w * h
    ensures InvX(deg, DstIndex(deg, x, y, w, h), w, h) == x
    ensures InvY(deg, DstIndex(deg, x, y, w, h), w, h) == y
  {
    if deg == 90 {
      assert DstIndex(deg, x, y, w, h) == x * h + (h - 1 - y);
      DivModOf(x, h - 1 - y, h);
      RowBelow(x, h - 1 - y, h, w);
      RowBelow(y, x, w, h);
    } else if deg == 180 {
      assert DstIndex(deg, x, y, w, h) == (h - 1 - y) * w + (w - 1 - x);
      DivModOf(h - 1 - y, w - 1 - x, w);
      RowBelow(h - 1 - y, w - 1 - x, w, h);
      RowBelow(y, x, w, h);
    } else {
      assert DstIndex(deg, x, y, w, h) == x * h + y;
      DivModOf(x, y, h);
      RowBelow(x, y, h, w);
      RowBelow(y, w - 1 - x, w, h);
    }
  }

  /** Every destination index below w*h is the image of the pixel (InvX, InvY). */
  lemma RightInverse(deg: int, d: int, w: int, h: int)
    requires Supported(deg) && 0 < w && 0 < h && 0 <= d < w * h
    ensures 0 <= InvX(deg, d, w, h) < w && 0 <= InvY(deg, d, w, h) < h
    ensures DstIndex(deg, InvX(deg, d, w, h), InvY(deg, d, w, h), w, h) == d
  {
    if deg == 180 {
      QuotBelow(d, w, h);
      assert d == (d / w) * w + d % w;
    } else {
      QuotBelow(d, h, w);
      assert d == (d / h) * h + d % h;
    }
  }

  /** Over x < w, y < h each destination index below w*h is written exactly once. */
  lemma {:induction false} DstIndexBijective(deg: int, w: nat, h: nat)
    requires Supported(deg)
    ensures forall x, y :: 0 <= x < w && 0 <= y < h ==> 0 <= DstIndex(deg, x, y, w, h) < w * h
    ensures forall x1, y1, x2, y2 ::
              (0 <= x1 < w && 0 <= y1 < h && 0 <= x2 < w && 0 <= y2 < h &&
               DstIndex(deg, x1, y1, w, h) == DstIndex(deg, x2, y2, w, h)) ==> x1 == x2 && y1 == y2
    ensures forall d :: 0 <= d < w * h ==>
              0 <= InvX(deg, d, w, h) < w && 0 <= InvY(deg, d, w, h) < h &&
              DstIndex(deg, InvX(deg, d, w, h), InvY(deg, d, w, h), w, h) == d
  {
    forall x, y | 0 <= x < w && 0 <= y < h
      ensures 0 <= DstIndex(deg, x, y, w, h) < w * h
    {
      LeftInverse(deg, x, y, w, h);
    }
    forall x1, y1, x2, y2 |
      0 <= x1 < w && 0 <= y1 < h && 0 <= x2 < w && 0 <= y2 < h &&
      DstIndex(deg, x1, y1, w, h) == DstIndex(deg, x2, y2, w, h)
      ensures x1 == x2 && y1 == y2
    {
      LeftInverse(deg, x1, y1, w, h);
      LeftInverse(deg, x2, y2, w, h);
    }
    forall d | 0 <= d < w * h
      ensures 0 <= InvX(deg, d, w, h) < w && 0 <= InvY(deg, d, w, h) < h
      ensures DstIndex(deg, InvX(deg, d, w, h), InvY(deg, d, w, h), w, h) == d
    {
      RightInverse(deg, d, w, h);
    }
  }

  // ---------------------------------------------------------------------
  // Reference definition

  /** Source index copied to destination d. */
  function SourceOf(deg: int, d: int, w: nat, h: nat): (i: int)
    requires Supported(deg) && 0 <= d < w * h
    ensures 0 <= i < w * h
  {
    RightInverse(deg, d, w, h);
    LeftInverse(deg, InvX(deg, d, w, h), InvY(deg, d, w, h), w, h);
    SrcIndex(deg, InvX(deg, d, w, h), InvY(deg, d, w, h), w, h)
  }

  /**
   * The contents of the new buffer: as long as the old one, its first w*h
   * bytes permuted for a supported angle, everything else left at zero
   * (all of it for an angle with no `when` branch).
   */
  function Turned(src: seq<bv8>, w: nat, h: nat, deg: int): (dst: seq<bv8>)
    requires Supported(deg) ==> w * h <= |src|
    ensures |dst| == |src|
  {
    seq(|src|, d requires 0 <= d < |src| =>
      if Supported(deg) && d < w * h then src[SourceOf(deg, d, w, h)] else 0)
  }

  /** What one call does to a plane: throws, or yields the new bytes and dimensions. */
  datatype Rotation = Rotated(plane: Plane) | IndexOutOfBounds

  function Rotate(p: Plane, deg: int): (r: Rotation)
    ensures !PassesGuards(deg) ==> r == Rotated(p)
    ensures r.IndexOutOfBounds? <==> PassesGuards(deg) && Supported(deg) && |p.bytes| < p.width * p.height
    ensures r.Rotated? ==>
              |r.plane.bytes| == |p.bytes| && r.plane.width * r.plane.height == p.width * p.height
  {
    if !PassesGuards(deg) then Rotated(p)
    else if Supported(deg) && |p.bytes| < p.width * p.height then IndexOutOfBounds
    else
      var turned := Turned(p.bytes, p.width, p.height, deg);
      if deg == 180 then Rotated(Plane(turned, p.width, p.height))
      else Rotated(Plane(turned, p.height, p.width))
  }

  // ---------------------------------------------------------------------
  // Properties of the reference definition

  /** Angle 0, or one that is not a multiple of 90, leaves bytes and dimensions alone. */
  lemma RotateIgnoresOtherAngles(p: Plane, deg: int)
    requires deg == 0 || deg % 90 != 0
    ensures Rotate(p, deg) == Rotated(p)
  {
  }

  /** A supported angle fails exactly when the buffer is shorter than width*height. */
  lemma RotateFailsOnShortBuffer(p: Plane, deg: int)
    ensures Rotate(p, deg).IndexOutOfBounds? <==> Supported(deg) && |p.bytes| < p.width * p.height
  {
  }

  /** The buffer keeps its length; 180 keeps the dimensions, every other rotating angle swaps them. */
  lemma RotateShape(p: Plane, deg: int)
    requires PassesGuards(deg) && Rotate(p, deg).Rotated?
    ensures |Rotate(p, deg).plane.bytes| == |p.bytes|
    ensures deg == 180 ==> Rotate(p, deg).plane.width == p.width && Rotate(p, deg).plane.height == p.height
    ensures deg != 180 ==> Rotate(p, deg).plane.width == p.height && Rotate(p, deg).plane.height == p.width
  {
  }

  /** Pixel (x, y) is copied from its source index to its destination index. */
  lemma TurnedPixel(src: seq<bv8>, w: nat, h: nat, deg: int, x: int, y: int)
    requires Supported(deg) && w * h <= |src| && 0 <= x < w && 0 <= y < h
    ensures 0 <= DstIndex(deg, x, y, w, h) < w * h && 0 <= SrcIndex(deg, x, y, w, h) < w * h
    ensures Turned(src, w, h, deg)[DstIndex(deg, x, y, w, h)] == src[SrcIndex(deg, x, y, w, h)]
  {
    LeftInverse(deg, x, y, w, h);
  }

  /** Bytes at or beyond width*height end up zero. */
  lemma TurnedTailIsZero(src: seq<bv8>, w: nat, h: nat, deg: int, d: int)
    requires Supported(deg) ==> w * h <= |src|
    requires 0 <= d < |src| && (d >= w * h || !Supported(deg))
    ensures Turned(src, w, h, deg)[d] == 0
  {
  }

  /** 180 is the reversal of the first width*height bytes. */
  lemma Turned180Reverses(src: seq<bv8>, w: nat, h: nat, i: int)
    requires w * h <= |src| && 0 <= i < w * h
    ensures Turned(src, w, h, 180)[i] == src[w * h - 1 - i]
  {
    RightInverse(180, i, w, h);
    var q, r := i / w, i % w;
    assert i == q * w + r;
    assert SourceOf(180, i, w, h) == (w - 1 - r) + (h - 1 - q) * w;
    assert (h - 1 - q) * w == h * w - w - q * w;
  }

  /** A multiple of 90 outside {90, 180, 270} zeroes the buffer and swaps the dimensions. */
  lemma RotateOddMultipleZeroes(p: Plane, deg: int)
    requires PassesGuards(deg) && !Supported(deg)
    ensures Rotate(p, deg) == Rotated(Plane(seq(|p.bytes|, _ => 0), p.height, p.width))
  {
  }

  /** Rotating by 90 and then by 270 restores a plane whose buffer is exactly width*height. */
  lemma {:induction false} RoundTrip90Then270(p: Plane)
    requires |p.bytes| == p.width * p.height
    ensures Rotate(p, 90).Rotated?
    ensures Rotate(Rotate(p, 90).plane, 270) == Rotated(p)
  {
    var w, h, s := p.width, p.height, p.bytes;
    var t := Turned(s, w, h, 90);
    var u := Turned(t, h, w, 270);
    forall i | 0 <= i < |s| ensures u[i] == s[i] {
      var x, y := i % w, i / w;
      QuotBelow(i, w, h);
      assert i == y * w + x;
      TurnedPixel(t, h, w, 270, y, x);
      TurnedPixel(s, w, h, 90, x, y);
    }
  }

  /** Rotating by 270 and then by 90 restores a plane whose buffer is exactly width*height. */
  lemma {:induction false} RoundTrip270Then90(p: Plane)
    requires |p.bytes| == p.width * p.height
    ensures Rotate(p, 270).Rotated?
    ensures Rotate(Rotate(p, 270).plane, 90) == Rotated(p)
  {
    var w, h, s := p.width, p.height, p.bytes;
    var t := Turned(s, w, h, 270);
    var u := Turned(t, h, w, 90);
    forall i | 0 <= i < |s| ensures u[i] == s[i] {
      var x, y := i % w, i / w;
      QuotBelow(i, w, h);
      assert i == y * w + x;
      TurnedPixel(t, h, w, 90, y, w - 1 - x);
      TurnedPixel(s, w, h, 270, w - 1 - x, y);
    }
  }

  /** Rotating by 180 twice restores a plane whose buffer is exactly width*height. */
  lemma {:induction false} RoundTrip180Twice(p: Plane)
    requires |p.bytes| == p.width * p.height
    ensures Rotate(p, 180).Rotated?
    ensures Rotate(Rotate(p, 180).plane, 180) == Rotated(p)
  {
    var w, h, s := p.width, p.height, p.bytes;
    var t := Turned(s, w, h, 180);
    var u := Turned(t, w, h, 180);
    forall i | 0 <= i < |s| ensures u[i] == s[i] {
      Turned180Reverses(t, w, h, i);
      Turned180Reverses(s, w, h, w * h - 1 - i);
    }
  }

  // ---------------------------------------------------------------------
  // The holder and the loop

  /** The mutable holder the analyzer passes to the rotator. */
  class RotatedImage {
    var byteArray: array<bv8>
    var width: nat
    var height: nat

    constructor (byteArray: array<bv8>, width: nat, height: nat)
      ensures this.byteArray == byteArray && this.width == width && this.height == height
    {
      this.byteArray := byteArray;
      this.width := width;
      this.height := height;
    }

    /** The plane the holder currently describes. */
    function Value(): Plane
      reads this, byteArray
    {
      Plane(byteArray[..], width, height)
    }
  }

  /** Pixel (xx, yy) comes before pixel (x, y) in the row-by-row scan. */
  ghost predicate Done(xx: int, yy: int, x: int, y: int) {
    yy < y || (yy == y && xx < x)
  }

  /** Every pixel scanned before (x, y) has been copied into `t`. */
  ghost predicate Filled(t: seq<bv8>, s: seq<bv8>, deg: int, w: nat, h: nat, x: int, y: int) {
    Supported(deg) ==>
      forall xx, yy {:trigger Done(xx, yy, x, y)} :: 0 <= xx < w && 0 <= yy < h && Done(xx, yy, x, y) ==>
        0 <= DstIndex(deg, xx, yy, w, h) < |t| && 0 <= SrcIndex(deg, xx, yy, w, h) < |s| &&
        t[DstIndex(deg, xx, yy, w, h)] == s[SrcIndex(deg, xx, yy, w, h)]
  }

  /** Positions that no pixel maps to still hold the zero the buffer was created with. */
  ghost predicate Blank(t: seq<bv8>, deg: int, w: nat, h: nat) {
    forall d :: 0 <= d < |t| && !(Supported(deg) && d < w * h) ==> t[d] == 0
  }

  /** The indices of an in-range pixel lie below w*h. */
  lemma IndicesInRange(deg: int, x: int, y: int, w: int, h: int)
    requires Supported(deg) && 0 <= x < w && 0 <= y < h
    ensures 0 <= DstIndex(deg, x, y, w, h) < w * h && 0 <= SrcIndex(deg, x, y, w, h) < w * h
  {
    LeftInverse(deg, x, y, w, h);
  }

  /** Two different in-range pixels never share a destination. */
  lemma DstIndexInjective(deg: int, x1: int, y1: int, x2: int, y2: int, w: int, h: int)
    requires Supported(deg) && 0 <= x1 < w && 0 <= y1 < h && 0 <= x2 < w && 0 <= y2 < h
    requires x1 != x2 || y1 != y2
    ensures DstIndex(deg, x1, y1, w, h) != DstIndex(deg, x2, y2, w, h)
  {
    LeftInverse(deg, x1, y1, w, h);
    LeftInverse(deg, x2, y2, w, h);
  }

  /** After copying pixel (x, y), pixel (xx, yy), scanned no later, holds its source byte. */
  lemma FilledPixel(t: seq<bv8>, s: seq<bv8>, deg: int, w: nat, h: nat, x: int, y: int, xx: int, yy: int)
    requires Supported(deg) && 0 <= x < w && 0 <= y < h && 0 <= xx < w && 0 <= yy < h
    requires Done(xx, yy, x + 1, y) && Filled(t, s, deg, w, h, x, y)
    requires DstIndex(deg, x, y, w, h) < |t| && SrcIndex(deg, x, y, w, h) < |s|
    ensures 0 <= DstIndex(deg, x, y, w, h) && 0 <= SrcIndex(deg, x, y, w, h)
    ensures 0 <= DstIndex(deg, xx, yy, w, h) < |t| && 0 <= SrcIndex(deg, xx, yy, w, h) < |s|
    ensures t[DstIndex(deg, x, y, w, h) := s[SrcIndex(deg, x, y, w, h)]][DstIndex(deg, xx, yy, w, h)]
            == s[SrcIndex(deg, xx, yy, w, h)]
  {
    IndicesInRange(deg, x, y, w, h);
    if xx != x || yy != y {
      assert Done(xx, yy, x, y);
      DstIndexInjective(deg, xx, yy, x, y, w, h);
    }
  }

  /** Copying pixel (x, y) extends the scanned prefix by one pixel. */
  lemma FilledStep(t: seq<bv8>, s: seq<bv8>, deg: int, w: nat, h: nat, x: int, y: int)
    requires Supported(deg) && 0 <= x < w && 0 <= y < h
    requires Filled(t, s, deg, w, h, x, y)
    requires DstIndex(deg, x, y, w, h) < |t| && SrcIndex(deg, x, y, w, h) < |s|
    ensures 0 <= DstIndex(deg, x, y, w, h) && 0 <= SrcIndex(deg, x, y, w, h)
    ensures Filled(t[DstIndex(deg, x, y, w, h) := s[SrcIndex(deg, x, y, w, h)]], s, deg, w, h, x + 1, y)
  {
    IndicesInRange(deg, x, y, w, h);
    forall xx, yy | 0 <= xx < w && 0 <= yy < h && Done(xx, yy, x + 1, y)
      ensures 0 <= DstIndex(deg, xx, yy, w, h) < |t| && 0 <= SrcIndex(deg, xx, yy, w, h) < |s|
      ensures t[DstIndex(deg, x, y, w, h) := s[SrcIndex(deg, x, y, w, h)]][DstIndex(deg, xx, yy, w, h)]
              == s[SrcIndex(deg, xx, yy, w, h)]
    {
      FilledPixel(t, s, deg, w, h, x, y, xx, yy);
    }
  }

  /** Writing below w*h keeps the rest of the buffer blank. */
  lemma BlankStep(t: seq<bv8>, deg: int, w: nat, h: nat, dst: int, b: bv8)
    requires Supported(deg) && 0 <= dst < w * h
    requires Blank(t, deg, w, h) && dst < |t|
    ensures Blank(t[dst := b], deg, w, h)
  {
  }

  /** A finished row is the same as the start of the next one. */
  lemma FilledNextRow(t: seq<bv8>, s: seq<bv8>, deg: int, w: nat, h: nat, y: int)
    requires Filled(t, s, deg, w, h, w, y)
    ensures Filled(t, s, deg, w, h, 0, y + 1)
  {
    if Supported(deg) {
      forall xx, yy | 0 <= xx < w && 0 <= yy < h && Done(xx, yy, 0, y + 1)
        ensures 0 <= DstIndex(deg, xx, yy, w, h) < |t| && 0 <= SrcIndex(deg, xx, yy, w, h) < |s|
        ensures t[DstIndex(deg, xx, yy, w, h)] == s[SrcIndex(deg, xx, yy, w, h)]
      {
        assert Done(xx, yy, w, y);
      }
    }
  }

  lemma FilledIsTurned(t: seq<bv8>, s: seq<bv8>, deg: int, w: nat, h: nat)
    requires |t| == |s| && (Supported(deg) ==> w * h <= |s|)
    requires Filled(t, s, deg, w, h, 0, h) && Blank(t, deg, w, h)
    ensures t == Turned(s, w, h, deg)
  {
    forall d | 0 <= d < |s| ensures t[d] == Turned(s, w, h, deg)[d] {
      if Supported(deg) && d < w * h {
        RightInverse(deg, d, w, h);
        assert Done(InvX(deg, d, w, h), InvY(deg, d, w, h), 0, h);
      }
    }
  }

  /**
   * One pass of the inner `for (x in 0 until width)` loop over row y: copy
   * every pixel of the row, or report the index that falls outside a buffer.
   */
  method ScanRow(rotatedData: array<bv8>, source: array<bv8>, ghost s: seq<bv8>,
                 rotationDegrees: int, width: nat, height: nat, y: nat) returns (thrown: bool)
    requires rotatedData != source && source[..] == s && rotatedData.Length == source.Length
    requires y < height
    requires Filled(rotatedData[..], s, rotationDegrees, width, height, 0, y)
    requires Blank(rotatedData[..], rotationDegrees, width, height)
    requires Supported(rotationDegrees) ==> y * width <= source.Length
    modifies rotatedData
    ensures thrown ==> Supported(rotationDegrees) && source.Length < width * height
    ensures !thrown ==> Filled(rotatedData[..], s, rotationDegrees, width, height, 0, y + 1)
    ensures !thrown ==> Blank(rotatedData[..], rotationDegrees, width, height)
    ensures !thrown && Supported(rotationDegrees) ==> (y + 1) * width <= source.Length
  {
    var supported := Supported(rotationDegrees);
    var x := 0;
    while x < width
      invariant 0 <= x <= width
      invariant Filled(rotatedData[..], s, rotationDegrees, width, height, x, y)
      invariant Blank(rotatedData[..], rotationDegrees, width, height)
      invariant rotationDegrees != 270 && supported ==> y * width + x <= source.Length
      invariant rotationDegrees == 270 && 0 < x ==> y * width + width <= source.Length
    {
      if supported {
        var to := DstIndex(rotationDegrees, x, y, width, height);
        var from := SrcIndex(rotationDegrees, x, y, width, height);
        LeftInverse(rotationDegrees, x, y, width, height);
        if from >= source.Length || to >= rotatedData.Length {
          // ArrayIndexOutOfBoundsException
          return true;
        }
        FilledStep(rotatedData[..], s, rotationDegrees, width, height, x, y);
        BlankStep(rotatedData[..], rotationDegrees, width, height, to, source[from]);
        rotatedData[to] := source[from];
      }
      x := x + 1;
    }
    FilledNextRow(rotatedData[..], s, rotationDegrees, width, height, y);
    assert (y + 1) * width == y * width + width;
    return false;
  }

  /**
   * rotateImageArray: fill a new buffer pixel by pixel, then replace the
   * holder's bytes, and its dimensions unless the angle is 180. An index
   * outside either buffer throws, leaving the holder as it was.
   */
  method RotateImageArray(image: RotatedImage, rotationDegrees: int) returns (thrown: bool)
    modifies image
    ensures thrown <==> Rotate(old(image.Value()), rotationDegrees).IndexOutOfBounds?
    ensures thrown ==> unchanged(image)
    ensures !thrown ==> image.Value() == Rotate(old(image.Value()), rotationDegrees).plane
    ensures !PassesGuards(rotationDegrees) ==> unchanged(image)
    ensures PassesGuards(rotationDegrees) && !thrown ==> fresh(image.byteArray)
  {
    if rotationDegrees == 0 { return false; }
    if rotationDegrees % 90 != 0 { return false; }

    var width := image.width;
    var height := image.height;
    var source := image.byteArray;
    ghost var s := source[..];

    var rotatedData := new bv8[source.Length](_ => 0);
    var y := 0;
    while y < height
      invariant 0 <= y <= height
      invariant unchanged(image)
      invariant Filled(rotatedData[..], s, rotationDegrees, width, height, 0, y)
      invariant Blank(rotatedData[..], rotationDegrees, width, height)
      invariant Supported(rotationDegrees) ==> y * width <= source.Length
    {
      thrown := ScanRow(rotatedData, source, s, rotationDegrees, width, height, y);
      if thrown {
        // the exception leaves rotateImageArray before the holder is touched
        return;
      }
      y := y + 1;
    }

    FilledIsTurned(rotatedData[..], s, rotationDegrees, width, height);
    image.byteArray := rotatedData;
    if rotationDegrees != 180 {
      image.height := width;
      image.width := height;
    }
    return false;
  }
}
