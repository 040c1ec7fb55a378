/** Painting one rectangle of a facade into the atlas (LowDetailBuilder.DrawFacadeTexture):
    every destination pixel of the rectangle takes a colour sampled from the source texture,
    and pixels on the seams are repeated outwards as padding. The writes are described by a
    function of the draw's parameters; the method is proved to make exactly those writes. */
module FacadePaint {
  import opened Pixels
  import opened BuildingData
  import opened AtlasContext

  /** A source texture ready for painting (TexturePaintObject). */
  datatype PaintSource = PaintSource(pixels: seq<Color32>, width: int, height: int, tiled: bool, tiles: Vec2)

  /** One call of DrawFacadeTexture: where on the facade (metres), how large, which source
      texture and whether it is drawn transposed. */
  datatype DrawRequest = DrawRequest(bayBase: Vec2, bayDimensions: Vec2, subMesh: int, flipped: bool)

  /** The values DrawFacadeTexture computes before its pixel loops. */
  datatype Paint = Paint(
    source: PaintSource,
    flipped: bool,
    stretch: Vec2,
    baseCood: int,
    textureWidth: int,
    textureSize: int,
    useWidth: int,
    useHeight: int,
    scaledPadding: int,
    padLeft: bool,
    padRight: bool,
    padBelow: bool,
    padAbove: bool)

  /** Metres on the facade to atlas pixels at the packed scale. */
  function ScaledPixels(metres: real, packedScale: real): real {
    metres * PixelsPerMeter as real * packedScale
  }

  /** The parameters of a draw: the painted size is rounded and grown by one pixel in each
      direction, a flipped draw swaps the two walk lengths, and seams are padded where the
      rectangle starts at the facade's origin or runs past the packed slot. */
  function PaintOf(c: Canvas, source: PaintSource, req: DrawRequest, packedPosition: Rect): Paint
  {
    var scaledPadding := FloorInt(AtlasPadding as real * c.packedScale);
    var paintWidth := Round(ScaledPixels(req.bayDimensions.x, c.packedScale));
    var paintHeight := Round(ScaledPixels(req.bayDimensions.y, c.packedScale));
    var stretch :=
      if source.tiled then Vec2(c.packedScale, c.packedScale)
      else Vec2(if paintWidth == 0 then 0.0 else source.width as real / paintWidth as real,
                if paintHeight == 0 then 0.0 else source.height as real / paintHeight as real);
    var baseX := Round(ScaledPixels(req.bayBase.x, c.packedScale) + packedPosition.x);
    var baseY := Round(ScaledPixels(req.bayBase.y, c.packedScale) + packedPosition.y);
    var grownWidth := paintWidth + 1;
    var grownHeight := paintHeight + 1;
    Paint(
      source, req.flipped, stretch,
      baseX + baseY * c.textureWidth, c.textureWidth, c.textureSize,
      if !req.flipped then grownWidth else grownHeight,
      if !req.flipped then grownHeight else grownWidth,
      scaledPadding,
      req.bayBase.x == 0.0, (baseX + grownWidth) as real > packedPosition.XMax(),
      req.bayBase.y == 0.0, (baseY + grownHeight) as real > packedPosition.YMax())
  }

  /** The source can be sampled: a non-zero size and at least one pixel. */
  predicate Readable(source: PaintSource) {
    source.width != 0 && source.height != 0 && |source.pixels| > 0
  }

  /** The pixel loops can run: the source can be sampled and the atlas has pixels. */
  predicate CanPaint(p: Paint) {
    Readable(p.source) && p.textureSize > 0
  }

  /** DrawFacadeTexture raises no exception: either its loops do not run, or they can. Otherwise
      the first pixel divides by a zero source size or indexes an empty array. */
  predicate Drawable(p: Paint) {
    p.useWidth <= 0 || p.useHeight <= 0 || CanPaint(p)
  }

  /** The source pixel read for destination step (px, py): tiled sources repeat, untiled ones
      are stretched, and the index is clamped into the source. The draw's flip plays no part. */
  function SampleIndex(source: PaintSource, stretch: Vec2, px: int, py: int): (r: int)
    requires Readable(source)
    ensures 0 <= r < |source.pixels|
  {
    var w := source.width;
    var six := if source.tiled then CsRem(px, w) else CsRem(Round(px as real * stretch.x * source.tiles.x), w);
    var siy := if source.tiled then CsRem(py, source.height) else CsRem(Round(py as real * stretch.y * source.tiles.y), source.height);
    Clamp(six + siy * w, 0, |source.pixels| - 1)
  }

  /** The colour painted at step (px, py). */
  function SampleColour(p: Paint, px: int, py: int): Color32
    requires Readable(p.source)
  {
    p.source.pixels[SampleIndex(p.source, p.stretch, px, py)]
  }

  /** The destination offset of step (px, py) from the draw's base: row-major, or transposed
      when the draw is flipped. */
  function WalkOffset(p: Paint, px: int, py: int): int {
    if !p.flipped then px + py * p.textureWidth else py + px * p.textureWidth
  }

  /** The pixel written at step (px, py), clamped into the atlas. */
  function PixelCoord(p: Paint, px: int, py: int): (r: int)
    requires p.textureSize > 0
    ensures 0 <= r < p.textureSize
  {
    Clamp(p.baseCood + WalkOffset(p, px, py), 0, p.textureSize - 1)
  }

  /** A padding run from pixel c: steps 1, 2, ... below n, going down or up by stride, ending
      at the first step past the atlas edge in the run's direction. */
  function PadWrites(c: int, stride: int, down: bool, from: nat, n: int, size: int, colour: Color32): (r: seq<Write>)
    ensures 0 <= c < size && stride >= 0 ==> WritesInBounds(r, size)
    ensures forall i :: 0 <= i < |r| ==> r[i].colour == colour
    decreases n - from
  {
    if from >= n then []
    else
      var paintCoord := if down then c - from * stride else c + from * stride;
      if (down && paintCoord < 0) || (!down && paintCoord >= size) then []
      else
        NonNegativeProduct(from, stride);
        [Write(paintCoord, colour)] + PadWrites(c, stride, down, from + 1, n, size, colour)
  }

  function PadIf(cond: bool, c: int, stride: int, down: bool, n: int, size: int, colour: Color32): (r: seq<Write>)
    ensures 0 <= c < size && stride >= 0 ==> WritesInBounds(r, size)
  {
    if cond then PadWrites(c, stride, down, 1, n, size, colour) else []
  }

  /** The writes of step (px, py): the sampled colour at its pixel, then the left, right,
      lower and upper seam padding where the step lies on that seam. */
  function CellWrites(p: Paint, px: int, py: int): (r: seq<Write>)
    requires CanPaint(p) && p.textureWidth >= 0
    ensures WritesInBounds(r, p.textureSize)
    ensures |r| >= 1 && r[0] == Write(PixelCoord(p, px, py), SampleColour(p, px, py))
  {
    var pixelCoord := PixelCoord(p, px, py);
    var colour := SampleColour(p, px, py);
    var size := p.textureSize;
    var left := PadIf(p.padLeft && px == 0, pixelCoord, 1, true, p.scaledPadding, size, colour);
    var right := PadIf(p.padRight && px == p.useWidth - 1, pixelCoord, 1, false, p.scaledPadding, size, colour);
    var below := PadIf(p.padBelow && py == 0, pixelCoord, p.textureWidth, true, p.scaledPadding, size, colour);
    var above := PadIf(p.padAbove && py == p.useHeight - 1, pixelCoord, p.textureWidth, false, p.scaledPadding, size, colour);
    WritesInBoundsAppend([Write(pixelCoord, colour)], left, size);
    WritesInBoundsAppend([Write(pixelCoord, colour)] + left, right, size);
    WritesInBoundsAppend([Write(pixelCoord, colour)] + left + right, below, size);
    WritesInBoundsAppend([Write(pixelCoord, colour)] + left + right + below, above, size);
    [Write(pixelCoord, colour)] + left + right + below + above
  }

  /** The writes of steps (px, 0) .. (px, n - 1). */
  function ColumnWrites(p: Paint, px: int, n: nat): (r: seq<Write>)
    requires CanPaint(p) && p.textureWidth >= 0
    ensures WritesInBounds(r, p.textureSize)
  {
    if n == 0 then []
    else
      var prefix := ColumnWrites(p, px, n - 1);
      WritesInBoundsAppend(prefix, CellWrites(p, px, n - 1), p.textureSize);
      prefix + CellWrites(p, px, n - 1)
  }

  /** The writes of the columns 0 .. m - 1. */
  function DrawWritesUpTo(p: Paint, m: nat): (r: seq<Write>)
    requires CanPaint(p) && p.textureWidth >= 0 && p.useHeight >= 0
    ensures WritesInBounds(r, p.textureSize)
  {
    if m == 0 then []
    else
      var prefix := DrawWritesUpTo(p, m - 1);
      WritesInBoundsAppend(prefix, ColumnWrites(p, m - 1, p.useHeight), p.textureSize);
      prefix + ColumnWrites(p, m - 1, p.useHeight)
  }

  /** Every write of a draw, in the order DrawFacadeTexture makes them; none when either walk
      length is not positive. Every write lands inside the atlas. */
  function DrawWrites(p: Paint): (r: seq<Write>)
    requires Drawable(p) && p.textureWidth >= 0
    ensures WritesInBounds(r, p.textureSize)
    ensures p.useWidth <= 0 || p.useHeight <= 0 ==> r == []
  {
    if p.useWidth <= 0 || p.useHeight <= 0 then [] else DrawWritesUpTo(p, p.useWidth)
  }

  /** A tiled source is read at (px mod width, py mod height) for non-negative steps, and, when
      it holds width * height pixels, without clamping. */
  lemma TiledSample(source: PaintSource, stretch: Vec2, px: int, py: int)
    requires Readable(source) && source.tiled && source.width > 0 && source.height > 0
    requires px >= 0 && py >= 0
    ensures SampleIndex(source, stretch, px, py) == Clamp(px % source.width + (py % source.height) * source.width, 0, |source.pixels| - 1)
    ensures |source.pixels| >= source.width * source.height ==>
              SampleIndex(source, stretch, px, py) == px % source.width + (py % source.height) * source.width
  {
    var w, h := source.width, source.height;
    CsRemNonNegative(px, w);
    CsRemNonNegative(py, h);
    RowMajorBelow(px % w, py % h, w, h);
  }

  /** A flipped draw walks the destination transposed: its step (px, py) lands where step
      (py, px) of the same draw unflipped lands. */
  lemma FlipTransposesDestination(p: Paint, px: int, py: int)
    requires p.textureSize > 0
    ensures PixelCoord(p.(flipped := true), px, py) == PixelCoord(p.(flipped := false), py, px)
  {
  }

  /** One step of a padding run: either the run ends here, or its first write is followed by
      the rest of the run. */
  lemma PadStep(s: seq<Color32>, c: int, stride: int, down: bool, from: nat, n: int, colour: Color32)
    requires 0 <= c < |s| && stride >= 0 && from < n
    ensures var paintCoord := if down then c - from * stride else c + from * stride;
            if (down && paintCoord < 0) || (!down && paintCoord >= |s|) then
              PadWrites(c, stride, down, from, n, |s|, colour) == []
            else
              0 <= paintCoord < |s|
              && ApplyWrites(s, PadWrites(c, stride, down, from, n, |s|, colour))
                 == ApplyWrites(s[paintCoord := colour], PadWrites(c, stride, down, from + 1, n, |s|, colour))
  {
    var paintCoord := if down then c - from * stride else c + from * stride;
    NonNegativeProduct(from, stride);
    if !((down && paintCoord < 0) || (!down && paintCoord >= |s|)) {
      ApplyWritesCons(s, Write(paintCoord, colour), PadWrites(c, stride, down, from + 1, n, |s|, colour));
    }
  }

  /** The loop `for (p = 1; p < n; p++)` of one padding run, ending at the first pixel past the
      atlas edge in its direction. */
  method PaintPadding(ctx: TextureDataContext, c: int, stride: int, down: bool, n: int, colour: Color32)
    requires ctx.Valid() && 0 <= c < ctx.textureSize && stride >= 0
    modifies ctx.colourArray
    ensures ctx.colourArray[..] == ApplyWrites(old(ctx.colourArray[..]), PadWrites(c, stride, down, 1, n, ctx.textureSize, colour))
  {
    ghost var target := ApplyWrites(ctx.colourArray[..], PadWrites(c, stride, down, 1, n, ctx.textureSize, colour));
    var p: nat := 1;
    while p < n
      invariant ApplyWrites(ctx.colourArray[..], PadWrites(c, stride, down, p, n, ctx.textureSize, colour)) == target
      decreases n - p
    {
      PadStep(ctx.colourArray[..], c, stride, down, p, n, colour);
      var paintCoord := if down then c - p * stride else c + p * stride;
      if (down && paintCoord < 0) || (!down && paintCoord >= ctx.textureSize) {
        break;
      }
      ctx.colourArray[paintCoord] := colour;
      p := p + 1;
    }
  }

  /** One step (px, py) of the pixel loops: sample, clamp, write, then pad the seams. */
  method PaintCell(ctx: TextureDataContext, p: Paint, px: int, py: int)
    requires ctx.Valid() && CanPaint(p)
    requires p.textureWidth == ctx.textureWidth && p.textureSize == ctx.textureSize
    modifies ctx.colourArray
    ensures ctx.colourArray[..] == ApplyWrites(old(ctx.colourArray[..]), CellWrites(p, px, py))
  {
    var size := ctx.textureSize;
    var paintPixelIndex := if !p.flipped then px + py * ctx.textureWidth else py + px * ctx.textureWidth;
    var sourceIndex := SampleIndex(p.source, p.stretch, px, py);
    var pixelCoord := Clamp(p.baseCood + paintPixelIndex, 0, size - 1);
    assert pixelCoord == PixelCoord(p, px, py);
    var sourceColour := p.source.pixels[sourceIndex];
    ghost var s0 := ctx.colourArray[..];
    ctx.colourArray[pixelCoord] := sourceColour;
    ghost var w0 := [Write(pixelCoord, sourceColour)];
    assert ctx.colourArray[..] == ApplyWrites(s0, w0);

    ghost var left := PadIf(p.padLeft && px == 0, pixelCoord, 1, true, p.scaledPadding, size, sourceColour);
    if p.padLeft && px == 0 {
      PaintPadding(ctx, pixelCoord, 1, true, p.scaledPadding, sourceColour);
    }
    ApplyWritesAppend(s0, w0, left);
    ghost var w1 := w0 + left;

    ghost var right := PadIf(p.padRight && px == p.useWidth - 1, pixelCoord, 1, false, p.scaledPadding, size, sourceColour);
    if p.padRight && px == p.useWidth - 1 {
      PaintPadding(ctx, pixelCoord, 1, false, p.scaledPadding, sourceColour);
    }
    ApplyWritesAppend(s0, w1, right);
    ghost var w2 := w1 + right;

    ghost var below := PadIf(p.padBelow && py == 0, pixelCoord, ctx.textureWidth, true, p.scaledPadding, size, sourceColour);
    if p.padBelow && py == 0 {
      PaintPadding(ctx, pixelCoord, ctx.textureWidth, true, p.scaledPadding, sourceColour);
    }
    ApplyWritesAppend(s0, w2, below);
    ghost var w3 := w2 + below;

    ghost var above := PadIf(p.padAbove && py == p.useHeight - 1, pixelCoord, ctx.textureWidth, false, p.scaledPadding, size, sourceColour);
    if p.padAbove && py == p.useHeight - 1 {
      PaintPadding(ctx, pixelCoord, ctx.textureWidth, false, p.scaledPadding, sourceColour);
    }
    ApplyWritesAppend(s0, w3, above);
    assert w3 + above == CellWrites(p, px, py);
  }

  /** DrawFacadeTexture: raises an exception exactly when the texture index is out of range or
      the pixel loops cannot run; the atlas is then unchanged, since the first pixel raises
      before any write. Otherwise the atlas receives exactly the writes of the draw. */
  method DrawFacadeTexture(ctx: TextureDataContext, sourceTextures: seq<PaintSource>, bayBase: Vec2, bayDimensions: Vec2,
                           subMesh: int, flipped: bool, packedPosition: Rect) returns (ok: bool)
    requires ctx.Valid()
    modifies ctx.colourArray
    ensures ok <==> 0 <= subMesh < |sourceTextures|
                    && Drawable(PaintOf(ctx.CanvasOf(), sourceTextures[subMesh], DrawRequest(bayBase, bayDimensions, subMesh, flipped), packedPosition))
    ensures ok ==> ctx.colourArray[..] == ApplyWrites(old(ctx.colourArray[..]),
                     DrawWrites(PaintOf(ctx.CanvasOf(), sourceTextures[subMesh], DrawRequest(bayBase, bayDimensions, subMesh, flipped), packedPosition)))
    ensures !ok ==> ctx.colourArray[..] == old(ctx.colourArray[..])
  {
    if !(0 <= subMesh < |sourceTextures|) {
      return false;
    }
    var paint := PaintOf(ctx.CanvasOf(), sourceTextures[subMesh], DrawRequest(bayBase, bayDimensions, subMesh, flipped), packedPosition);
    var useWidth, useHeight := paint.useWidth, paint.useHeight;
    if useWidth <= 0 || useHeight <= 0 {
      return true;
    }
    // The first pixel divides by the source size and indexes both arrays.
    if !CanPaint(paint) {
      return false;
    }
    ghost var a0 := ctx.colourArray[..];
    for px := 0 to useWidth
      invariant ctx.colourArray[..] == ApplyWrites(a0, DrawWritesUpTo(paint, px))
    {
      ghost var mid := ctx.colourArray[..];
      for py := 0 to useHeight
        invariant ctx.colourArray[..] == ApplyWrites(mid, ColumnWrites(paint, px, py))
      {
        PaintCell(ctx, paint, px, py);
        ApplyWritesAppend(mid, ColumnWrites(paint, px, py), CellWrites(paint, px, py));
      }
      ApplyWritesAppend(a0, DrawWritesUpTo(paint, px), ColumnWrites(paint, px, useHeight));
    }
    return true;
  }
}
