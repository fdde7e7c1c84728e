/**
 * The ZBar frame analyzer: it reassembles the three YUV planes into one NV21
 * buffer, has the platform turn that into ARGB pixels, converts every pixel
 * to an 8-bit grey value with a fixed-point weighted sum, and hands the grey
 * image to the ZBar scanner. The data of the last symbol found is passed to
 * the callback when it is not empty.
 *
 * The JPEG round trip through YuvImage/BitmapFactory and the ZBar scanner
 * are closed libraries; they are the function parameters `toBitmap` and
 * `scanner`.
 */
module ZBarAnalysis {
  import opened CameraTypes

  // Fixed-point luma weights: they sum to 1 << 16.
  const RED_WEIGHT := 19595
  const GREEN_WEIGHT := 38469
  const BLUE_WEIGHT := 7472

  function Red(pixel: bv32): (c: int)
    ensures 0 <= c <= 255
  {
    ((pixel & 0x00ff_0000) >> 16) as int
  }

  function Green(pixel: bv32): (c: int)
    ensures 0 <= c <= 255
  {
    ((pixel & 0x0000_ff00) >> 8) as int
  }

  function Blue(pixel: bv32): (c: int)
    ensures 0 <= c <= 255
  {
    (pixel & 0x0000_00ff) as int
  }

  /** The weighted channel sum shifted right by 16 (the sum is never negative, so the shift is a floor division). */
  function Luma(r: int, g: int, b: int): (l: int)
    ensures l * 65536 <= r * RED_WEIGHT + g * GREEN_WEIGHT + b * BLUE_WEIGHT < (l + 1) * 65536
  {
    (r * RED_WEIGHT + g * GREEN_WEIGHT + b * BLUE_WEIGHT) / 65536
  }

  /** Channels in [0, 255] give a value in [0, 255], so `toByte` keeps it whole. */
  lemma LumaInByteRange(r: int, g: int, b: int)
    requires 0 <= r <= 255 && 0 <= g <= 255 && 0 <= b <= 255
    ensures 0 <= Luma(r, g, b) <= 255
  {
    assert RED_WEIGHT + GREEN_WEIGHT + BLUE_WEIGHT == 65536;
    assert r * RED_WEIGHT + g * GREEN_WEIGHT + b * BLUE_WEIGHT <= 255 * 65536;
  }

  /** Equal channels give back that channel: black stays 0, white stays 255. */
  lemma LumaOfGrey(c: int)
    ensures Luma(c, c, c) == c
  {
    assert c * RED_WEIGHT + c * GREEN_WEIGHT + c * BLUE_WEIGHT == c * 65536;
  }

  /** Raising any channel never lowers the grey value. */
  lemma LumaMonotone(r1: int, g1: int, b1: int, r2: int, g2: int, b2: int)
    requires r1 <= r2 && g1 <= g2 && b1 <= b2
    ensures Luma(r1, g1, b1) <= Luma(r2, g2, b2)
  {
    var s1 := r1 * RED_WEIGHT + g1 * GREEN_WEIGHT + b1 * BLUE_WEIGHT;
    var s2 := r2 * RED_WEIGHT + g2 * GREEN_WEIGHT + b2 * BLUE_WEIGHT;
    assert s1 <= s2;
  }

  /** A grey byte, read as unsigned: `toByte` keeps the low eight bits, and the value never needs more. */
  type GreyByte = x: int | 0 <= x < 256

  /** The grey byte written for one ARGB pixel; alpha is ignored. */
  function GreyOf(pixel: bv32): (grey: GreyByte)
    ensures grey == Luma(Red(pixel), Green(pixel), Blue(pixel))
  {
    var r, g, b := Red(pixel), Green(pixel), Blue(pixel);
    LumaInByteRange(r, g, b);
    Luma(r, g, b)
  }

  /** The grey plane, pixel by pixel. */
  function Greys(photodata: seq<bv32>): (grey: seq<GreyByte>)
    ensures |grey| == |photodata|
    ensures forall i :: 0 <= i < |grey| ==> grey[i] == GreyOf(photodata[i])
  {
    seq(|photodata|, i requires 0 <= i < |photodata| => GreyOf(photodata[i]))
  }

  /** The grey-conversion loop: one byte per pixel, each from that pixel alone. */
  method ToGreyData(photodata: array<bv32>) returns (greyData: array<GreyByte>)
    ensures greyData[..] == Greys(photodata[..])
  {
    greyData := new GreyByte[photodata.Length];
    for i := 0 to greyData.Length
      invariant forall j :: 0 <= j < i ==> greyData[j] == GreyOf(photodata[j])
    {
      greyData[i] := GreyOf(photodata[i]);
    }
    assert greyData[..] == Greys(photodata[..]);
  }

  /** `buffer.get(dst, offset, length)`: copy `src` into `dst` from `offset` on. */
  method CopyInto(dst: array<bv8>, offset: nat, src: seq<bv8>)
    requires offset + |src| <= dst.Length
    modifies dst
    ensures dst[offset..offset + |src|] == src
    ensures dst[..offset] == old(dst[..offset])
    ensures dst[offset + |src|..] == old(dst[offset + |src|..])
  {
    for k := 0 to |src|
      invariant dst[offset..offset + k] == src[..k]
      invariant dst[..offset] == old(dst[..offset])
      invariant dst[offset + |src|..] == old(dst[offset + |src|..])
    {
      dst[offset + k] := src[k];
    }
  }

  /** toBitmap's NV21 assembly: the Y bytes, then the V bytes, then the U bytes. */
  method ToNv21(yBuffer: seq<bv8>, uBuffer: seq<bv8>, vBuffer: seq<bv8>) returns (nv21: array<bv8>)
    ensures nv21.Length == |yBuffer| + |uBuffer| + |vBuffer|
    ensures nv21[..|yBuffer|] == yBuffer
    ensures nv21[|yBuffer|..|yBuffer| + |vBuffer|] == vBuffer
    ensures nv21[|yBuffer| + |vBuffer|..] == uBuffer
  {
    var ySize := |yBuffer|;
    var uSize := |uBuffer|;
    var vSize := |vBuffer|;
    nv21 := new bv8[ySize + uSize + vSize];
    CopyInto(nv21, 0, yBuffer);
    CopyInto(nv21, ySize, vBuffer);
    assert nv21[..ySize] == nv21[..ySize + vSize][..ySize];
    CopyInto(nv21, ySize + vSize, uBuffer);
    assert nv21[..ySize] == nv21[..ySize + vSize][..ySize];
  }

  /** A symbol found by ZBar; its data is a Java string that may be null. */
  datatype Symbol = Symbol(data: Option<string>)

  /** `"" + sym.data`: string concatenation renders null as "null". */
  function SymbolText(sym: Symbol): (text: string)
    ensures sym.data.Some? ==> text == sym.data.value
    ensures sym.data.None? ==> text == "null"
  {
    match sym.data
    case Some(s) => s
    case None => "null"
  }

  /** The text left by the result-selection loop: that of the last symbol, or "" when there is none. */
  function LastSymbolText(syms: seq<Symbol>): (text: string)
    ensures syms == [] ==> text == ""
    ensures syms != [] ==> text == SymbolText(syms[|syms| - 1])
  {
    if syms == [] then "" else SymbolText(syms[|syms| - 1])
  }

  /** A later symbol always overrides what came before it. */
  lemma LaterSymbolWins(syms: seq<Symbol>, sym: Symbol)
    ensures LastSymbolText(syms + [sym]) == SymbolText(sym)
  {
  }

  /** A last symbol without data still yields a non-empty text, "null", so the callback fires. */
  lemma NullDataIsReported(syms: seq<Symbol>)
    requires syms != [] && syms[|syms| - 1].data.None?
    ensures LastSymbolText(syms) == "null" && LastSymbolText(syms) != ""
  {
  }

  /** The result-selection loop: each symbol overwrites the previous text. */
  method SelectResult(syms: seq<Symbol>) returns (resultString: string)
    ensures resultString == LastSymbolText(syms)
  {
    resultString := "";
    for i := 0 to |syms|
      invariant resultString == LastSymbolText(syms[..i])
    {
      resultString := "" + SymbolText(syms[i]);
    }
  }

  /** The ARGB bitmap decoded from the JPEG: exactly width*height pixels. */
  datatype BitmapData = BitmapData(width: nat, height: nat, pixels: seq<bv32>)
  type Bitmap = b: BitmapData | |b.pixels| == b.width * b.height witness BitmapData(0, 0, [])

  /** The grey image handed to the scanner. */
  datatype GreyImage = GreyImage(width: nat, height: nat, data: seq<GreyByte>)

  /** What scanImage returns, with the scanner's symbols. */
  datatype Scan = Scan(result: int, symbols: seq<Symbol>)

  /** The grey image the scanner sees for a bitmap. */
  function GreyImageOf(bitmap: Bitmap): (g: GreyImage)
    ensures g.width == bitmap.width && g.height == bitmap.height
    ensures |g.data| == bitmap.width * bitmap.height
    ensures g.data == Greys(bitmap.pixels)
  {
    GreyImage(bitmap.width, bitmap.height, Greys(bitmap.pixels))
  }

  /**
   * analyze: returns the string passed to the callback, or None when the
   * callback is not called. It is called at most once per frame, and only
   * for a three-plane YUV image whose scan succeeded with a non-empty text.
   */
  method Analyze(frame: ImageProxy, rotationDegrees: int,
                 toBitmap: (seq<bv8>, nat, nat) -> Bitmap, scanner: GreyImage -> Scan)
    returns (detected: Option<string>)
    ensures frame.image.None? || !IsYuvThreePlane(frame.image.value) ==> detected.None?
    ensures frame.image.Some? && IsYuvThreePlane(frame.image.value) ==>
              var planes := frame.image.value.planes;
              var bitmap := toBitmap(planes[0] + planes[2] + planes[1], frame.width, frame.height);
              var scan := scanner(GreyImageOf(bitmap));
              (detected.Some? <==> scan.result != 0 && LastSymbolText(scan.symbols) != "") &&
              (detected.Some? ==> detected.value == LastSymbolText(scan.symbols))
  {
    detected := None;
    if frame.image.None? {
      return;
    }
    var img := frame.image.value;
    if !IsYuvThreePlane(img) {
      // "something went wrong"
      return;
    }
    var nv21 := ToNv21(img.planes[0], img.planes[1], img.planes[2]);
    assert nv21[..] == img.planes[0] + img.planes[2] + img.planes[1] by {
      assert nv21[..] == nv21[..|img.planes[0]|] + nv21[|img.planes[0]|..|img.planes[0]| + |img.planes[2]|]
                         + nv21[|img.planes[0]| + |img.planes[2]|..];
    }
    var bitmap := toBitmap(nv21[..], frame.width, frame.height);
    var w, h := bitmap.width, bitmap.height;
    var photodata := new bv32[w * h](i requires 0 <= i < w * h => bitmap.pixels[i]);
    var greyData := ToGreyData(photodata);
    var barcode := GreyImage(w, h, greyData[..]);
    assert barcode == GreyImageOf(bitmap);
    var scan := scanner(barcode);
    if scan.result != 0 {
      var resultString := SelectResult(scan.symbols);
      if resultString != "" {
        detected := Some(resultString);
      }
    }
  }
}
