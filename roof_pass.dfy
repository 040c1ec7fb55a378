/** The roof pass of LowDetailBuilder.BuildTextures: every roof texture is resampled to the
    size of one repeat inside its packed slot and copied into the atlas, repeating across the
    slot, with seam padding on the slot's four sides. The first destination index past the atlas
    ends the whole pass (the source returns from BuildTextures), keeping what was written. */
module RoofPass {
  import opened Pixels
  import opened BuildingData
  import opened AtlasContext

  /** How a run of copy steps ends: all its writes made; stopped by the early return at an index
      past the atlas, with the writes made before it; or an exception. */
  datatype Outcome = Completed(writes: seq<Write>) | Stopped(writes: seq<Write>) | Faulted

  /** What a copy method reports: go on, the pass has returned, or an exception was raised. */
  datatype Status = Continue | Halt | Fail

  function StatusOf(o: Outcome): (st: Status)
    ensures st == Fail <==> o.Faulted?
    ensures st == Halt <==> o.Stopped?
  {
    match o
    case Completed(_) => Continue
    case Stopped(_) => Halt
    case Faulted => Fail
  }

  /** Running a, then b: b runs only when a ran to its end. */
  function Then(a: Outcome, b: Outcome): (r: Outcome)
    ensures !a.Completed? ==> r == a
    ensures a.Completed? ==> StatusOf(r) == StatusOf(b)
  {
    match a
    case Completed(ws) =>
      (match b
       case Completed(ws2) => Completed(ws + ws2)
       case Stopped(ws2) => Stopped(ws + ws2)
       case Faulted => Faulted)
    case _ => a
  }

  /** The writes an outcome records all land in a buffer of the given size. */
  predicate Sound(o: Outcome, size: int) {
    o.Faulted? || WritesInBounds(o.writes, size)
  }

  /** Running a run of writes after another is writing both, in order. */
  lemma ThenApply(s: seq<Color32>, a: Outcome, b: Outcome)
    requires a.Completed? && Sound(a, |s|) && Sound(b, |s|)
    ensures Sound(Then(a, b), |s|)
    ensures !b.Faulted? ==> ApplyWrites(s, Then(a, b).writes) == ApplyWrites(ApplyWrites(s, a.writes), b.writes)
  {
    if !b.Faulted? {
      ApplyWritesAppend(s, a.writes, b.writes);
    }
  }

  /** The values the roof copy of one texture fixes before its pixel loops: the resampled
      pixels and their size, the slot's origin and rounded size, and the atlas. */
  datatype RoofCopy = RoofCopy(
    colours: seq<Color32>,
    sourceWidth: int,
    sourceHeight: int,
    origin: Vec2,
    targetWidth: int,
    targetHeight: int,
    textureWidth: int,
    textureSize: int,
    scaledPadding: int)

  /** The remainders of the pixel loops divide by the source size, which the pass has checked
      to be non-zero. */
  predicate Copyable(q: RoofCopy) {
    q.sourceWidth != 0 && q.sourceHeight != 0
  }

  /** The atlas pixel of step (x, y): the step offset by the slot's origin, row-major. */
  function DestIndex(q: RoofCopy, x: int, y: int): int {
    FloorInt(x as real + q.origin.x) + FloorInt(y as real + q.origin.y) * q.textureWidth
  }

  /** The source pixel of step (x, y): the steps wrap around the source in both directions. */
  function SourceIndex(q: RoofCopy, x: int, y: int): int
    requires Copyable(q)
  {
    CsRem(x, q.sourceWidth) + CsRem(y, q.sourceHeight) * q.sourceWidth
  }

  /** The target of padding step p from pixel c. */
  function PadTarget(c: int, stride: int, down: bool, p: int): int {
    if down then c - p * stride else c + p * stride
  }

  /** Steps from, from + 1, .. n - 1 of a roof padding run from pixel c. */
  function RoofPadFrom(c: int, stride: int, down: bool, from: int, n: int, colour: Color32): seq<Write>
    decreases n - from
  {
    if from >= n then [] else [Write(PadTarget(c, stride, down, from), colour)] + RoofPadFrom(c, stride, down, from + 1, n, colour)
  }

  /** A roof padding run `for (p = 0; p < n; p++)` from pixel c: it starts at c itself and,
      unlike the facade padding, has no bounds test. */
  function RoofPad(c: int, stride: int, down: bool, n: int, colour: Color32): seq<Write> {
    RoofPadFrom(c, stride, down, 0, n, colour)
  }

  /** One step of a roof padding run: the rest of the run is in bounds exactly when this step
      is and the run after it is, and it is then written as this step followed by the rest. */
  lemma RoofPadStep(s: seq<Color32>, c: int, stride: int, down: bool, from: int, n: int, colour: Color32)
    requires from < n
    ensures var t := PadTarget(c, stride, down, from);
            (WritesInBounds(RoofPadFrom(c, stride, down, from, n, colour), |s|) <==>
               0 <= t < |s| && WritesInBounds(RoofPadFrom(c, stride, down, from + 1, n, colour), |s|))
            && (WritesInBounds(RoofPadFrom(c, stride, down, from, n, colour), |s|) ==>
                  ApplyWrites(s, RoofPadFrom(c, stride, down, from, n, colour))
                  == ApplyWrites(s[t := colour], RoofPadFrom(c, stride, down, from + 1, n, colour)))
  {
    var w := Write(PadTarget(c, stride, down, from), colour);
    var rest := RoofPadFrom(c, stride, down, from + 1, n, colour);
    assert RoofPadFrom(c, stride, down, from, n, colour) == [w] + rest;
    WritesInBoundsAppend([w], rest, |s|);
    assert WritesInBounds([w], |s|) <==> 0 <= w.index < |s| by {
      assert [w][0] == w;
    }
    if 0 <= w.index < |s| && WritesInBounds(rest, |s|) {
      ApplyWritesCons(s, w, rest);
    }
  }

  function PadWhen(cond: bool, c: int, stride: int, down: bool, n: int, colour: Color32): seq<Write> {
    if cond then RoofPad(c, stride, down, n, colour) else []
  }

  /** The padding of step (x, y) from its pixel c: to the left on the first column, to the
      right on the last, below on the first row and above on the last. */
  function CellPads(q: RoofCopy, x: int, y: int, c: int, colour: Color32): seq<Write> {
    PadWhen(x == 0, c, 1, true, q.scaledPadding, colour)
      + PadWhen(x == q.targetWidth - 1, c, 1, false, q.scaledPadding, colour)
      + PadWhen(y == 0, c, q.textureWidth, true, q.scaledPadding, colour)
      + PadWhen(y == q.targetHeight - 1, c, q.textureWidth, false, q.scaledPadding, colour)
  }

  /** The writes of step (x, y) once its pixel c is inside the atlas: the pixel, then its
      padding. */
  function CellWrites(q: RoofCopy, x: int, y: int, c: int, colour: Color32): seq<Write> {
    [Write(c, colour)] + CellPads(q, x, y, c, colour)
  }

  /** Step (x, y): reading outside the resampled pixels raises; a destination index past the
      atlas ends the pass; otherwise the step's writes are made, and one of them outside the
      atlas (a negative index, or padding run past either end) raises. */
  function CellOutcome(q: RoofCopy, x: int, y: int): (r: Outcome)
    requires Copyable(q)
    ensures Sound(r, q.textureSize)
  {
    var sourceIndex := SourceIndex(q, x, y);
    if !(0 <= sourceIndex < |q.colours|) then Faulted
    else
      var c := DestIndex(q, x, y);
      if c >= q.textureSize then Stopped([])
      else
        var ws := CellWrites(q, x, y, c, q.colours[sourceIndex]);
        if WritesInBounds(ws, q.textureSize) then Completed(ws) else Faulted
  }

  /** Steps 0 .. n - 1 of a loop, run in order: the loop ends with the first step that stops
      or raises. */
  function Run(step: int -> Outcome, n: int): Outcome
    decreases n
  {
    if n <= 0 then Completed([]) else Then(Run(step, n - 1), step(n - 1))
  }

  lemma {:induction false} RunSound(step: int -> Outcome, n: int, size: int)
    requires forall i :: 0 <= i < n ==> Sound(step(i), size)
    ensures Sound(Run(step, n), size)
    decreases n
  {
    if n > 0 {
      RunSound(step, n - 1, size);
      ThenApplySound(size, Run(step, n - 1), step(n - 1));
    }
  }

  /** Once a loop has stopped or raised, its later steps change nothing: the early return ends
      the loop with the writes made before it. */
  lemma {:induction false} RunAbsorbs(step: int -> Outcome, i: int, n: int)
    requires 0 <= i <= n && !Run(step, i).Completed?
    ensures Run(step, n) == Run(step, i)
    decreases n - i
  {
    if i < n {
      RunAbsorbs(step, i, n - 1);
    }
  }

  /** Steps (x, 0) .. (x, n - 1). */
  function ColumnOutcome(q: RoofCopy, x: int, n: int): (r: Outcome)
    requires Copyable(q)
    ensures Sound(r, q.textureSize)
  {
    RunSound(CellStep(q, x), n, q.textureSize);
    Run(CellStep(q, x), n)
  }

  function CellStep(q: RoofCopy, x: int): int -> Outcome
    requires Copyable(q)
  {
    y => CellOutcome(q, x, y)
  }

  /** Columns 0 .. m - 1, each of targetHeight steps. */
  function ColumnsOutcome(q: RoofCopy, m: int): (r: Outcome)
    requires Copyable(q)
    ensures Sound(r, q.textureSize)
  {
    RunSound(ColumnStep(q), m, q.textureSize);
    Run(ColumnStep(q), m)
  }

  function ColumnStep(q: RoofCopy): int -> Outcome
    requires Copyable(q)
  {
    x => ColumnOutcome(q, x, q.targetHeight)
  }

  lemma ThenApplySound(size: int, a: Outcome, b: Outcome)
    requires Sound(a, size) && Sound(b, size)
    ensures Sound(Then(a, b), size)
  {
    if a.Completed? && !b.Faulted? {
      WritesInBoundsAppend(a.writes, b.writes, size);
    }
  }

  /** A float quotient. The source divides an int by a float; a zero divisor gives an infinite
      or undefined float there, which this model does not follow: it takes 0. */
  function Ratio(a: real, b: real): real {
    if b == 0.0 then 0.0 else a / b
  }

  /** The source size of one repeat of a roof texture: the slot's size divided by the number of
      repeats, MaxUVTile for a tiled texture and TiledX/TiledY otherwise. */
  function RepeatWidth(t: Texture, targetWidth: int): int {
    Round(Ratio(targetWidth as real, if t.tiled then t.maxUVTile.x else t.tiledX))
  }

  function RepeatHeight(t: Texture, targetHeight: int): int {
    Round(Ratio(targetHeight as real, if t.tiled then t.maxUVTile.y else t.tiledY))
  }

  /** Whether the pass skips a texture: no UV extent, or a zero source size. */
  predicate Skipped(t: Texture, slot: Rect) {
    t.maxUVTile == Vec2(0.0, 0.0)
    || RepeatWidth(t, Round(slot.width)) * RepeatHeight(t, Round(slot.height)) == 0
  }

  /** The copy parameters of roof texture t in the given slot. */
  function RoofCopyOf(c: Canvas, e: Engine, t: Texture, slot: Rect): (q: RoofCopy)
    requires !Skipped(t, slot)
    ensures Copyable(q)
  {
    var targetWidth := Round(slot.width);
    var targetHeight := Round(slot.height);
    var sourceWidth := RepeatWidth(t, targetWidth);
    var sourceHeight := RepeatHeight(t, targetHeight);
    RoofCopy(e.resample(t.pixels, t.width, t.height, sourceWidth, sourceHeight), sourceWidth, sourceHeight,
             Vec2(slot.x, slot.y), targetWidth, targetHeight,
             c.textureWidth, c.textureSize, FloorInt(AtlasPadding as real * c.packedScale))
  }

  /** Roof texture t copied into packed slot k: a slot past the list raises, a skipped texture
      writes nothing. */
  function TextureOutcome(c: Canvas, e: Engine, positions: seq<Rect>, t: Texture, k: int): (r: Outcome)
    ensures Sound(r, c.textureSize)
  {
    if !(0 <= k < |positions|) then Faulted
    else if Skipped(t, positions[k]) then Completed([])
    else
      var q := RoofCopyOf(c, e, t, positions[k]);
      ColumnsOutcome(q, q.targetWidth)
  }

  /** Roof texture i in slot i + facadeNumber. */
  function TextureStep(c: Canvas, e: Engine, positions: seq<Rect>, roofTextures: seq<Texture>, facadeNumber: nat, i: int): (r: Outcome)
    ensures Sound(r, c.textureSize)
  {
    if 0 <= i < |roofTextures| then TextureOutcome(c, e, positions, roofTextures[i], i + facadeNumber) else Faulted
  }

  /** The first n roof textures. */
  function PassOutcome(c: Canvas, e: Engine, positions: seq<Rect>, roofTextures: seq<Texture>, facadeNumber: nat, n: int): (r: Outcome)
    ensures Sound(r, c.textureSize)
  {
    RunSound(TextureSteps(c, e, positions, roofTextures, facadeNumber), n, c.textureSize);
    Run(TextureSteps(c, e, positions, roofTextures, facadeNumber), n)
  }

  function TextureSteps(c: Canvas, e: Engine, positions: seq<Rect>, roofTextures: seq<Texture>, facadeNumber: nat): int -> Outcome {
    i => TextureStep(c, e, positions, roofTextures, facadeNumber, i)
  }

  /** A skipped texture writes nothing and cannot stop the pass. */
  lemma SkippedWritesNothing(c: Canvas, e: Engine, positions: seq<Rect>, t: Texture, k: int)
    requires 0 <= k < |positions|
    requires t.maxUVTile == Vec2(0.0, 0.0) || RepeatWidth(t, Round(positions[k].width)) == 0 || RepeatHeight(t, Round(positions[k].height)) == 0
    ensures TextureOutcome(c, e, positions, t, k) == Completed([])
  {
  }

  /** For a positive source size the wrapped source index of a step with non-negative
      coordinates is (x mod w) + (y mod h) * w, inside the w * h pixels of the repeat. */
  lemma SourceIndexInRepeat(q: RoofCopy, x: int, y: int)
    requires q.sourceWidth > 0 && q.sourceHeight > 0 && x >= 0 && y >= 0
    ensures SourceIndex(q, x, y) == x % q.sourceWidth + (y % q.sourceHeight) * q.sourceWidth
    ensures 0 <= SourceIndex(q, x, y) < q.sourceWidth * q.sourceHeight
  {
    var w, h := q.sourceWidth, q.sourceHeight;
    CsRemNonNegative(x, w);
    CsRemNonNegative(y, h);
    RowMajorBelow(x % w, y % h, w, h);
  }

  /** When the resampler returns the w * h pixels it is asked for and the repeat has a
      positive size, no step of the copy reads outside them. */
  lemma NoReadFault(q: RoofCopy, x: int, y: int)
    requires q.sourceWidth > 0 && q.sourceHeight > 0 && |q.colours| == q.sourceWidth * q.sourceHeight
    requires x >= 0 && y >= 0
    ensures CellOutcome(q, x, y).Faulted? ==> DestIndex(q, x, y) < q.textureSize
    ensures CellOutcome(q, x, y).Stopped? <==> DestIndex(q, x, y) >= q.textureSize
  {
    SourceIndexInRepeat(q, x, y);
  }

  /** The first write of a step inside the atlas puts the wrapped source pixel at the step's
      destination. */
  lemma CellWritesSource(q: RoofCopy, x: int, y: int)
    requires Copyable(q) && CellOutcome(q, x, y).Completed?
    ensures 0 <= SourceIndex(q, x, y) < |q.colours|
    ensures CellOutcome(q, x, y).writes[0] == Write(DestIndex(q, x, y), q.colours[SourceIndex(q, x, y)])
  {
  }

  /** One padding run of the roof copy; a target outside the atlas raises. */
  method CopyPadding(ctx: TextureDataContext, c: int, stride: int, down: bool, n: int, colour: Color32) returns (ok: bool)
    requires ctx.Valid()
    modifies ctx.colourArray
    ensures ok <==> WritesInBounds(RoofPad(c, stride, down, n, colour), ctx.textureSize)
    ensures ok ==> ctx.colourArray[..] == ApplyWrites(old(ctx.colourArray[..]), RoofPad(c, stride, down, n, colour))
  {
    ghost var inBounds := WritesInBounds(RoofPad(c, stride, down, n, colour), ctx.textureSize);
    ghost var target := if inBounds then ApplyWrites(ctx.colourArray[..], RoofPad(c, stride, down, n, colour)) else [];
    ok := true;
    var p := 0;
    while ok && p < n
      invariant 0 <= p
      invariant ok ==> (inBounds <==> WritesInBounds(RoofPadFrom(c, stride, down, p, n, colour), ctx.textureSize))
      invariant ok && inBounds ==> target == ApplyWrites(ctx.colourArray[..], RoofPadFrom(c, stride, down, p, n, colour))
      invariant !ok ==> !inBounds
      decreases n - p, ok
    {
      RoofPadStep(ctx.colourArray[..], c, stride, down, p, n, colour);
      var paintCoord := if down then c - p * stride else c + p * stride;
      if 0 <= paintCoord < ctx.colourArray.Length {
        ctx.colourArray[paintCoord] := colour;
        p := p + 1;
      } else {
        ok := false;
      }
    }
  }

  /** A padding run the step makes only when cond holds. */
  method CopyPaddingIf(ctx: TextureDataContext, cond: bool, c: int, stride: int, down: bool, n: int, colour: Color32) returns (ok: bool)
    requires ctx.Valid()
    modifies ctx.colourArray
    ensures ok <==> WritesInBounds(PadWhen(cond, c, stride, down, n, colour), ctx.textureSize)
    ensures ok ==> ctx.colourArray[..] == ApplyWrites(old(ctx.colourArray[..]), PadWhen(cond, c, stride, down, n, colour))
  {
    ok := true;
    if cond {
      ok := CopyPadding(ctx, c, stride, down, n, colour);
    }
  }

  /** Appending one more run of writes: the whole is in bounds exactly when both parts are,
      and then it is written as the first part followed by the second. */
  lemma CellPart(s: seq<Color32>, a: seq<Write>, b: seq<Write>, s1: seq<Color32>, s2: seq<Color32>)
    requires WritesInBounds(a, |s|) && s1 == ApplyWrites(s, a)
    ensures WritesInBounds(a + b, |s|) <==> WritesInBounds(b, |s|)
    ensures WritesInBounds(b, |s|) && s2 == ApplyWrites(s1, b) ==> s2 == ApplyWrites(s, a + b)
  {
    WritesInBoundsAppend(a, b, |s|);
    if WritesInBounds(b, |s|) {
      ApplyWritesAppend(s, a, b);
    }
  }

  /** The four padding runs of one step, in the order the source makes them. */
  method CopyCellPadding(ctx: TextureDataContext, q: RoofCopy, x: int, y: int, colourIndex: int, sourceColour: Color32)
    returns (ok: bool)
    requires ctx.Valid() && q.textureWidth == ctx.textureWidth
    modifies ctx.colourArray
    ensures ok <==> WritesInBounds(CellPads(q, x, y, colourIndex, sourceColour), ctx.textureSize)
    ensures ok ==> ctx.colourArray[..] == ApplyWrites(old(ctx.colourArray[..]), CellPads(q, x, y, colourIndex, sourceColour))
  {
    ghost var s0 := ctx.colourArray[..];
    ghost var w1 := PadWhen(x == 0, colourIndex, 1, true, q.scaledPadding, sourceColour);
    ghost var p2 := PadWhen(x == q.targetWidth - 1, colourIndex, 1, false, q.scaledPadding, sourceColour);
    ghost var p3 := PadWhen(y == 0, colourIndex, ctx.textureWidth, true, q.scaledPadding, sourceColour);
    ghost var p4 := PadWhen(y == q.targetHeight - 1, colourIndex, ctx.textureWidth, false, q.scaledPadding, sourceColour);
    ok := CopyPaddingIf(ctx, x == 0, colourIndex, 1, true, q.scaledPadding, sourceColour);
    if ok {
      ok := CopyPaddingIf(ctx, x == q.targetWidth - 1, colourIndex, 1, false, q.scaledPadding, sourceColour);
      CellPart(s0, w1, p2, ApplyWrites(s0, w1), ctx.colourArray[..]);
    }
    WritesInBoundsAppend(w1, p2, ctx.textureSize);
    ghost var w2 := w1 + p2;
    if ok {
      ok := CopyPaddingIf(ctx, y == 0, colourIndex, ctx.textureWidth, true, q.scaledPadding, sourceColour);
      CellPart(s0, w2, p3, ApplyWrites(s0, w2), ctx.colourArray[..]);
    }
    WritesInBoundsAppend(w2, p3, ctx.textureSize);
    ghost var w3 := w2 + p3;
    if ok {
      ok := CopyPaddingIf(ctx, y == q.targetHeight - 1, colourIndex, ctx.textureWidth, false, q.scaledPadding, sourceColour);
      CellPart(s0, w3, p4, ApplyWrites(s0, w3), ctx.colourArray[..]);
    }
    WritesInBoundsAppend(w3, p4, ctx.textureSize);
  }

  /** The writes of one step, in the order the source makes them. */
  method CopyCell(ctx: TextureDataContext, q: RoofCopy, x: int, y: int) returns (st: Status)
    requires ctx.Valid() && Copyable(q)
    requires q.textureWidth == ctx.textureWidth && q.textureSize == ctx.textureSize
    modifies ctx.colourArray
    ensures st == StatusOf(CellOutcome(q, x, y))
    ensures st != Fail ==> ctx.colourArray[..] == ApplyWrites(old(ctx.colourArray[..]), CellOutcome(q, x, y).writes)
  {
    var drawX := FloorInt(x as real + q.origin.x);
    var drawY := FloorInt(y as real + q.origin.y);
    var colourIndex := drawX + drawY * ctx.textureWidth;
    var sx := CsRem(x, q.sourceWidth);
    var sy := CsRem(y, q.sourceHeight);
    var sourceIndex := sx + sy * q.sourceWidth;
    if !(0 <= sourceIndex < |q.colours|) {
      return Fail;
    }
    var sourceColour := q.colours[sourceIndex];
    if colourIndex >= ctx.textureSize {
      return Halt;
    }
    ghost var s0 := ctx.colourArray[..];
    ghost var w0 := [Write(colourIndex, sourceColour)];
    ghost var pads := CellPads(q, x, y, colourIndex, sourceColour);
    assert CellWrites(q, x, y, colourIndex, sourceColour) == w0 + pads;
    if colourIndex < 0 {
      assert (w0 + pads)[0] == w0[0];
      return Fail;
    }
    ctx.colourArray[colourIndex] := sourceColour;
    assert ctx.colourArray[..] == ApplyWrites(s0, w0);
    var ok := CopyCellPadding(ctx, q, x, y, colourIndex, sourceColour);
    CellPart(s0, w0, pads, ApplyWrites(s0, w0), ctx.colourArray[..]);
    st := if ok then Continue else Fail;
  }

  /** The inner loop `for (y = 0; y < targetTextureHeight; y++)` of one column. */
  method CopyColumn(ctx: TextureDataContext, q: RoofCopy, x: int) returns (st: Status)
    requires ctx.Valid() && Copyable(q)
    requires q.textureWidth == ctx.textureWidth && q.textureSize == ctx.textureSize
    modifies ctx.colourArray
    ensures st == StatusOf(ColumnOutcome(q, x, q.targetHeight))
    ensures st != Fail ==> ctx.colourArray[..] == ApplyWrites(old(ctx.colourArray[..]), ColumnOutcome(q, x, q.targetHeight).writes)
  {
    ghost var s0 := ctx.colourArray[..];
    st := Continue;
    var y := 0;
    while st == Continue && y < q.targetHeight
      invariant 0 <= y && (y <= q.targetHeight || y == 0)
      invariant st == StatusOf(ColumnOutcome(q, x, y))
      invariant st != Fail ==> ctx.colourArray[..] == ApplyWrites(s0, ColumnOutcome(q, x, y).writes)
      decreases q.targetHeight - y
    {
      ghost var a := ColumnOutcome(q, x, y);
      st := CopyCell(ctx, q, x, y);
      ThenApply(s0, a, CellOutcome(q, x, y));
      assert ColumnOutcome(q, x, y + 1) == Then(a, CellOutcome(q, x, y));
      y := y + 1;
    }
    if st != Continue {
      RunAbsorbs(CellStep(q, x), y, q.targetHeight);
    }
  }

  /** The outer loop `for (x = 0; x < targetTextureWidth; x++)` of one texture. */
  method CopyColumns(ctx: TextureDataContext, q: RoofCopy) returns (st: Status)
    requires ctx.Valid() && Copyable(q)
    requires q.textureWidth == ctx.textureWidth && q.textureSize == ctx.textureSize
    modifies ctx.colourArray
    ensures st == StatusOf(ColumnsOutcome(q, q.targetWidth))
    ensures st != Fail ==> ctx.colourArray[..] == ApplyWrites(old(ctx.colourArray[..]), ColumnsOutcome(q, q.targetWidth).writes)
  {
    ghost var s0 := ctx.colourArray[..];
    st := Continue;
    var x := 0;
    while st == Continue && x < q.targetWidth
      invariant 0 <= x && (x <= q.targetWidth || x == 0)
      invariant st == StatusOf(ColumnsOutcome(q, x))
      invariant st != Fail ==> ctx.colourArray[..] == ApplyWrites(s0, ColumnsOutcome(q, x).writes)
      decreases q.targetWidth - x
    {
      ghost var a := ColumnsOutcome(q, x);
      st := CopyColumn(ctx, q, x);
      ThenApply(s0, a, ColumnOutcome(q, x, q.targetHeight));
      assert ColumnsOutcome(q, x + 1) == Then(a, ColumnOutcome(q, x, q.targetHeight));
      x := x + 1;
    }
    if st != Continue {
      RunAbsorbs(ColumnStep(q), x, q.targetWidth);
    }
  }

  /** One roof texture: its slot, the skip tests, the resampled repeat, then the pixel loops. */
  method CopyRoofTexture(ctx: TextureDataContext, e: Engine, i: nat, facadeNumber: nat, scaledPadding: int) returns (st: Status)
    requires ctx.Valid() && i < |ctx.roofTextures|
    requires scaledPadding == FloorInt(AtlasPadding as real * ctx.packedScale)
    modifies ctx.colourArray
    ensures st == StatusOf(TextureOutcome(ctx.CanvasOf(), e, ctx.packedTexturePositions, ctx.roofTextures[i], i + facadeNumber))
    ensures st != Fail ==> ctx.colourArray[..] == ApplyWrites(old(ctx.colourArray[..]),
                             TextureOutcome(ctx.CanvasOf(), e, ctx.packedTexturePositions, ctx.roofTextures[i], i + facadeNumber).writes)
  {
    if i + facadeNumber >= |ctx.packedTexturePositions| {
      return Fail;
    }
    var roofTexturePosition := ctx.packedTexturePositions[i + facadeNumber];
    var bTexture := ctx.roofTextures[i];
    var roofTextureWidth := bTexture.width;
    var roofTextureHeight := bTexture.height;
    var targetTextureWidth := Round(roofTexturePosition.width);
    var targetTextureHeight := Round(roofTexturePosition.height);
    if bTexture.maxUVTile == Vec2(0.0, 0.0) {
      return Continue;
    }
    var sourceTextureWidth := Round(Ratio(targetTextureWidth as real, if bTexture.tiled then bTexture.maxUVTile.x else bTexture.tiledX));
    var sourceTextureHeight := Round(Ratio(targetTextureHeight as real, if bTexture.tiled then bTexture.maxUVTile.y else bTexture.tiledY));
    var sourceTextureSize := sourceTextureWidth * sourceTextureHeight;
    if sourceTextureSize == 0 {
      return Continue;
    }
    var roofColourArray := e.resample(bTexture.pixels, roofTextureWidth, roofTextureHeight, sourceTextureWidth, sourceTextureHeight);
    var q := RoofCopy(roofColourArray, sourceTextureWidth, sourceTextureHeight, Vec2(roofTexturePosition.x, roofTexturePosition.y),
                      targetTextureWidth, targetTextureHeight, ctx.textureWidth, ctx.textureSize, scaledPadding);
    assert q == RoofCopyOf(ctx.CanvasOf(), e, bTexture, roofTexturePosition);
    st := CopyColumns(ctx, q);
  }

  /** One iteration of the roof pass, after the first i textures have run to their end. */
  method CopyNextRoofTexture(ctx: TextureDataContext, e: Engine, i: nat, facadeNumber: nat, scaledPadding: int,
                             ghost s0: seq<Color32>, ghost c: Canvas, ghost positions: seq<Rect>, ghost roofs: seq<Texture>)
    returns (st: Status)
    requires ctx.Valid() && c == ctx.CanvasOf() && positions == ctx.packedTexturePositions && roofs == ctx.roofTextures
    requires i < |roofs| && |s0| == c.textureSize
    requires scaledPadding == FloorInt(AtlasPadding as real * c.packedScale)
    requires PassOutcome(c, e, positions, roofs, facadeNumber, i).Completed?
    requires ctx.colourArray[..] == ApplyWrites(s0, PassOutcome(c, e, positions, roofs, facadeNumber, i).writes)
    modifies ctx.colourArray
    ensures st == StatusOf(PassOutcome(c, e, positions, roofs, facadeNumber, i + 1))
    ensures st != Fail ==> ctx.colourArray[..] == ApplyWrites(s0, PassOutcome(c, e, positions, roofs, facadeNumber, i + 1).writes)
  {
    ghost var a := PassOutcome(c, e, positions, roofs, facadeNumber, i);
    ghost var t := TextureStep(c, e, positions, roofs, facadeNumber, i);
    st := CopyRoofTexture(ctx, e, i, facadeNumber, scaledPadding);
    ThenApply(s0, a, t);
    assert PassOutcome(c, e, positions, roofs, facadeNumber, i + 1) == Then(a, t);
  }

  /** The roof pass: roof texture i is copied into packed slot i + facadeNumber, the slots
      after the facades'. It ends at the first step whose pixel lies past the atlas, keeping
      the writes made before it. */
  method CopyRoofTextures(ctx: TextureDataContext, e: Engine, facadeNumber: nat) returns (st: Status)
    requires ctx.Valid()
    modifies ctx.colourArray
    ensures st == StatusOf(PassOutcome(ctx.CanvasOf(), e, ctx.packedTexturePositions, ctx.roofTextures, facadeNumber, |ctx.roofTextures|))
    ensures st != Fail ==> ctx.colourArray[..] == ApplyWrites(old(ctx.colourArray[..]),
                             PassOutcome(ctx.CanvasOf(), e, ctx.packedTexturePositions, ctx.roofTextures, facadeNumber, |ctx.roofTextures|).writes)
  {
    ghost var s0 := ctx.colourArray[..];
    ghost var c := ctx.CanvasOf();
    ghost var positions := ctx.packedTexturePositions;
    ghost var roofs := ctx.roofTextures;
    var numberOfRoofTextures := |ctx.roofTextures|;
    var scaledPadding := FloorInt(AtlasPadding as real * ctx.packedScale);
    st := Continue;
    var i := 0;
    while st == Continue && i < numberOfRoofTextures
      invariant 0 <= i <= numberOfRoofTextures
      invariant st == StatusOf(PassOutcome(c, e, positions, roofs, facadeNumber, i))
      invariant st != Fail ==> ctx.colourArray[..] == ApplyWrites(s0, PassOutcome(c, e, positions, roofs, facadeNumber, i).writes)
      decreases numberOfRoofTextures - i
    {
      st := CopyNextRoofTexture(ctx, e, i, facadeNumber, scaledPadding, s0, c, positions, roofs);
      i := i + 1;
    }
    if st != Continue {
      RunAbsorbs(TextureSteps(c, e, positions, roofs, facadeNumber), i, numberOfRoofTextures);
    }
  }
}
