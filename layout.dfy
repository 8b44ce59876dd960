/** The pixel-layout decode of `grabImage`: from the camera's video format
    and mode, or from the Format 7 colour code, to the number of colours,
    bytes per colour and NDArray element type; then the colour mode and the
    array dimensions. */
module PixelLayouts {
  import opened Options

  /** The NDArray element types the decode table produces. */
  datatype DataType = NDInt8 | NDUInt8 | NDInt16 | NDUInt16

  /** The `NDDataType_t` value of each element type. */
  function DataTypeCode(t: DataType): (c: int)
    ensures 0 <= c <= 3
    ensures c % 2 == 1 <==> t == NDUInt8 || t == NDUInt16
  {
    match t
    case NDInt8 => 0
    case NDUInt8 => 1
    case NDInt16 => 2
    case NDUInt16 => 3
  }

  /** The size of one array element. */
  function ElementBytes(t: DataType): nat {
    if t == NDInt8 || t == NDUInt8 then 1 else 2
  }

  /** How one frame's pixels are laid out. */
  datatype PixelLayout = PixelLayout(numColors: int, bytesPerColor: int, dataType: DataType)

  /** The shape every layout of the table has: mono or three colours, one or two bytes each. */
  predicate WellFormed(p: PixelLayout) {
    (p.numColors == 1 || p.numColors == 3) && (p.bytesPerColor == 1 || p.bytesPerColor == 2)
  }

  // Format 7 colour codes of the camera library, in the order of its colour code names.
  const ColorCodeY8 := 0
  const ColorCodeYUV411 := 1
  const ColorCodeYUV422 := 2
  const ColorCodeYUV444 := 3
  const ColorCodeRGB8 := 4
  const ColorCodeY16 := 5
  const ColorCodeRGB16 := 6
  const ColorCodeY16Signed := 7
  const ColorCodeRGB16Signed := 8
  const ColorCodeRaw8 := 9
  const ColorCodeRaw16 := 10
  const ColorCodeMax := 11

  /** The layout of a Format 7 frame, from its colour code. */
  function Format7Layout(colorCode: int): (r: Option<PixelLayout>)
    ensures r.Some? <==> 0 <= colorCode < ColorCodeMax
    ensures r.Some? ==> WellFormed(r.value)
  {
    if colorCode == ColorCodeY8 || colorCode == ColorCodeRaw8 then
      Some(PixelLayout(1, 1, NDUInt8))
    else if colorCode == ColorCodeY16 || colorCode == ColorCodeRaw16 then
      Some(PixelLayout(1, 2, NDUInt16))
    else if colorCode == ColorCodeY16Signed then
      Some(PixelLayout(1, 2, NDInt16))
    else if colorCode == ColorCodeYUV411 || colorCode == ColorCodeYUV422
         || colorCode == ColorCodeYUV444 || colorCode == ColorCodeRGB8 then
      Some(PixelLayout(3, 1, NDUInt8))
    else if colorCode == ColorCodeRGB16 then
      Some(PixelLayout(3, 2, NDUInt8))
    else if colorCode == ColorCodeRGB16Signed then
      Some(PixelLayout(3, 2, NDInt8))
    else
      None
  }

  /** The layout of a fixed-format frame, from its video format and mode. */
  function PresetLayout(format: int, mode: int): (r: Option<PixelLayout>)
    ensures r.Some? <==> (format == 0 && 0 <= mode <= 6) || ((format == 1 || format == 2) && 0 <= mode <= 7)
    ensures r.Some? ==> WellFormed(r.value)
  {
    if format == 0 then
      if 0 <= mode <= 4 then Some(PixelLayout(3, 1, NDUInt8))
      else if mode == 5 then Some(PixelLayout(1, 1, NDUInt8))
      else if mode == 6 then Some(PixelLayout(1, 2, NDUInt16))
      else None
    else if format == 1 || format == 2 then
      if mode == 0 || mode == 1 || mode == 3 || mode == 4 then Some(PixelLayout(3, 1, NDUInt8))
      else if mode == 2 || mode == 5 then Some(PixelLayout(1, 1, NDUInt8))
      else if mode == 6 || mode == 7 then Some(PixelLayout(1, 2, NDUInt16))
      else None
    else
      None
  }

  /** The decode `grabImage` performs once it has read the current format:
      Format 7 goes by colour code, every other format by (format, mode). */
  function FrameLayout(format: int, mode: int, colorCode: int): (r: Option<PixelLayout>)
    ensures r.Some? ==> WellFormed(r.value)
    ensures format == 7 ==> (r.Some? <==> 0 <= colorCode < ColorCodeMax)
    ensures format != 7 ==> (r.Some? <==> 0 <= format <= 2 && 0 <= mode <= 7 && !(format == 0 && mode == 7))
  {
    if format == 7 then Format7Layout(colorCode) else PresetLayout(format, mode)
  }

  // ---------------------------------------------------------------------
  // An independent reference: the pixel codings named by the mode and the
  // colour-code name tables, and what each name means.

  datatype Coding =
    | Yuv444 | Yuv422 | Yuv411 | Rgb8 | Mono8 | Mono16
    | Rgb16 | Mono16Signed | Rgb16Signed | Raw8 | Raw16

  /** The coding each (format, mode) name announces; "Reserved", "Exif" and "N.A." announce none. */
  function ModeCoding(format: int, mode: int): Option<Coding> {
    if format == 0 then
      if mode == 0 then Some(Yuv444)
      else if mode == 1 then Some(Yuv422)
      else if mode == 2 then Some(Yuv411)
      else if mode == 3 then Some(Yuv422)
      else if mode == 4 then Some(Rgb8)
      else if mode == 5 then Some(Mono8)
      else if mode == 6 then Some(Mono16)
      else None
    else if format == 1 || format == 2 then
      if mode == 0 then Some(Yuv422)
      else if mode == 1 then Some(Rgb8)
      else if mode == 2 then Some(Mono8)
      else if mode == 3 then Some(Yuv422)
      else if mode == 4 then Some(Rgb8)
      else if mode == 5 then Some(Mono8)
      else if mode == 6 then Some(Mono16)
      else if mode == 7 then Some(Mono16)
      else None
    else
      None
  }

  /** The coding each colour code is named after. */
  function ColorCodeCoding(colorCode: int): Option<Coding> {
    if colorCode == 0 then Some(Mono8)
    else if colorCode == 1 then Some(Yuv411)
    else if colorCode == 2 then Some(Yuv422)
    else if colorCode == 3 then Some(Yuv444)
    else if colorCode == 4 then Some(Rgb8)
    else if colorCode == 5 then Some(Mono16)
    else if colorCode == 6 then Some(Rgb16)
    else if colorCode == 7 then Some(Mono16Signed)
    else if colorCode == 8 then Some(Rgb16Signed)
    else if colorCode == 9 then Some(Raw8)
    else if colorCode == 10 then Some(Raw16)
    else None
  }

  /** Colour spaces carry three channels; mono and raw sensor data carry one. */
  function Channels(c: Coding): int {
    match c
    case Mono8 | Mono16 | Mono16Signed | Raw8 | Raw16 => 1
    case _ => 3
  }

  /** Sixteen-bit codings take two bytes per sample, all others one. */
  function SampleBytes(c: Coding): int {
    match c
    case Mono16 | Rgb16 | Mono16Signed | Rgb16Signed | Raw16 => 2
    case _ => 1
  }

  predicate Signed(c: Coding) {
    c == Mono16Signed || c == Rgb16Signed
  }

  /** The element type a sample of the coding nominally has. */
  function NominalType(c: Coding): DataType {
    if SampleBytes(c) == 1 then (if Signed(c) then NDInt8 else NDUInt8)
    else (if Signed(c) then NDInt16 else NDUInt16)
  }

  /** The one-byte element type of the same signedness. */
  function EightBit(t: DataType): DataType {
    if t == NDInt8 || t == NDInt16 then NDInt8 else NDUInt8
  }

  /** What a decode table entry must be for a coding: the coding's channels
      and sample width, and its element type, narrowed to one byte when the
      frame has three colours (such frames are converted to 8-bit RGB). */
  predicate Describes(p: PixelLayout, c: Coding) {
    && p.numColors == Channels(c)
    && p.bytesPerColor == SampleBytes(c)
    && p.dataType == (if Channels(c) == 3 then EightBit(NominalType(c)) else NominalType(c))
  }

  /** The fixed-format table decodes exactly the modes the name table
      gives a coding, each as that coding describes. */
  lemma PresetLayoutMatchesModeNames(format: int, mode: int)
    ensures PresetLayout(format, mode).Some? <==> ModeCoding(format, mode).Some?
    ensures PresetLayout(format, mode).Some? ==>
      Describes(PresetLayout(format, mode).value, ModeCoding(format, mode).value)
  {
  }

  /** The Format 7 table decodes exactly the named colour codes, each as
      its name describes. */
  lemma Format7LayoutMatchesCodeNames(colorCode: int)
    ensures Format7Layout(colorCode).Some? <==> ColorCodeCoding(colorCode).Some?
    ensures Format7Layout(colorCode).Some? ==>
      Describes(Format7Layout(colorCode).value, ColorCodeCoding(colorCode).value)
  {
  }

  /** The two sixteen-bit colour codes are decoded with a one-byte element type. */
  lemma Rgb16Quirks()
    ensures Format7Layout(ColorCodeRGB16) == Some(PixelLayout(3, 2, NDUInt8))
    ensures Format7Layout(ColorCodeRGB16Signed) == Some(PixelLayout(3, 2, NDInt8))
  {
  }

  /** A single-colour array element is exactly one camera sample wide, so the
      raw copy fills an array of one element per pixel; the 16-bit colour
      codes are the exception, using one-byte elements for two-byte samples. */
  lemma ElementWidths(format: int, mode: int, colorCode: int)
    requires FrameLayout(format, mode, colorCode).Some?
    ensures var p := FrameLayout(format, mode, colorCode).value;
      (p.numColors == 1 ==> ElementBytes(p.dataType) == p.bytesPerColor)
      && (p.numColors == 3 ==> ElementBytes(p.dataType) == 1)
      && (ElementBytes(p.dataType) != p.bytesPerColor <==>
            format == 7 && (colorCode == ColorCodeRGB16 || colorCode == ColorCodeRGB16Signed))
  {
  }

  // ---------------------------------------------------------------------
  // Colour mode and array dimensions.

  // NDColorMode values the driver reads and writes.
  const ColorModeMono := 0
  const ColorModeBayer := 1
  const ColorModeRGB1 := 2

  /** The colour mode for a frame: three colours give RGB1; a single colour
      keeps a Bayer setting already in place and otherwise gives Mono. */
  function ChooseColorMode(numColors: int, current: int): (m: int)
    ensures m == ColorModeMono || m == ColorModeBayer || m == ColorModeRGB1
    ensures m == ColorModeRGB1 <==> numColors == 3
    ensures numColors != 3 ==> (m == ColorModeBayer <==> current == ColorModeBayer)
  {
    if numColors == 3 then ColorModeRGB1
    else if current != ColorModeBayer then ColorModeMono
    else ColorModeBayer
  }

  function Product(d: seq<int>): int {
    if d == [] then 1 else d[0] * Product(d[1..])
  }

  /** The NDArray dimensions: [sizeX, sizeY] for one colour, pixel-interleaved
      [3, sizeX, sizeY] otherwise. */
  function ArrayDims(numColors: int, sizeX: int, sizeY: int): (d: seq<int>)
    ensures |d| == (if numColors == 1 then 2 else 3)
    ensures d[|d| - 2] == sizeX && d[|d| - 1] == sizeY
    ensures numColors != 1 ==> d[0] == 3
  {
    if numColors == 1 then [sizeX, sizeY] else [3, sizeX, sizeY]
  }

  /** The dimensions multiply out to one element per colour sample. */
  lemma ArrayDimsCount(numColors: int, sizeX: int, sizeY: int)
    requires numColors == 1 || numColors == 3
    ensures Product(ArrayDims(numColors, sizeX, sizeY)) == numColors * sizeX * sizeY
  {
    var pixels := [sizeX, sizeY];
    assert Product(pixels) == sizeX * sizeY by {
      assert pixels[1..] == [sizeY];
      assert [sizeY][1..] == [];
      assert Product([sizeY]) == sizeY * Product([]);
    }
    if numColors == 3 {
      assert ArrayDims(numColors, sizeX, sizeY)[1..] == pixels;
    }
  }

  /** For every layout of the table, the colour mode is RGB1 exactly when the
      array has three dimensions, and the first dimension then holds the colours. */
  lemma ColorModeMatchesDims(p: PixelLayout, current: int, sizeX: int, sizeY: int)
    requires WellFormed(p)
    ensures var d := ArrayDims(p.numColors, sizeX, sizeY);
      (ChooseColorMode(p.numColors, current) == ColorModeRGB1 <==> |d| == 3)
      && (|d| == 3 ==> d[0] == p.numColors)
  {
  }
}
