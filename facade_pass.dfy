/** The bay and floor loops of BuildTextures' facade pass: every floor of a facade is painted
    bay by bay into the atlas slot planned for the facade. Which requests a floor issues is
    given by BayLayout; what one request does to the atlas is DrawFacadeTexture's business.
    The loops are proved against a DrawSemantics, a value that records, request by request,
    whether DrawFacadeTexture returns normally and the writes it makes; Models ties such a
    value to DrawFacadeTexture's own contract, and DrawSemanticsOf is the value that does so.
    After a fault the exception leaves Build, so nothing is claimed about the buffer then. */
module FacadePass {
  import opened Wrappers
  import opened Pixels
  import opened BuildingData
  import opened AtlasContext
  import opened FacadePaint
  import opened BayLayout

  /** DrawFacadeTexture accepts the request: the texture exists and the draw does not raise. */
  predicate Issuable(c: Canvas, sources: seq<PaintSource>, req: DrawRequest, pos: Rect) {
    0 <= req.subMesh < |sources| && Drawable(PaintOf(c, sources[req.subMesh], req, pos))
  }

  /** The writes of one accepted request. */
  function RequestWrites(c: Canvas, sources: seq<PaintSource>, req: DrawRequest, pos: Rect): (r: seq<Write>)
    requires Issuable(c, sources, req, pos) && c.textureWidth >= 0
    ensures WritesInBounds(r, c.textureSize)
  {
    DrawWrites(PaintOf(c, sources[req.subMesh], req, pos))
  }

  /** The outcome of each request drawn into the slot pos of an atlas of `size` pixels. */
  datatype DrawSemantics = DrawSemantics(size: int, accepts: (DrawRequest, Rect) -> bool, writes: (DrawRequest, Rect) -> seq<Write>)

  /** Every draw stays inside the atlas. */
  ghost predicate Bounded(o: DrawSemantics) {
    forall req, pos :: WritesInBounds(o.writes(req, pos), o.size)
  }

  /** o describes DrawFacadeTexture on canvas c with these source textures. */
  ghost predicate Models(o: DrawSemantics, c: Canvas, sources: seq<PaintSource>) {
    o.size == c.textureSize && c.textureWidth >= 0 && Bounded(o)
    && forall req, pos {:trigger Issuable(c, sources, req, pos)} ::
         (o.accepts(req, pos) <==> Issuable(c, sources, req, pos))
         && (Issuable(c, sources, req, pos) ==> o.writes(req, pos) == RequestWrites(c, sources, req, pos))
  }

  /** The semantics DrawFacadeTexture has on canvas c: a refused request writes nothing. */
  function DrawSemanticsOf(c: Canvas, sources: seq<PaintSource>): (o: DrawSemantics)
    requires c.textureWidth >= 0
    ensures Models(o, c, sources)
  {
    DrawSemantics(c.textureSize,
                  (req, pos) => Issuable(c, sources, req, pos),
                  (req, pos) => if Issuable(c, sources, req, pos) then RequestWrites(c, sources, req, pos) else [])
  }

  /** Every request of a run is accepted. */
  predicate AllAccepted(o: DrawSemantics, reqs: seq<DrawRequest>, pos: Rect) {
    forall i :: 0 <= i < |reqs| ==> o.accepts(reqs[i], pos)
  }

  /** The writes of a run of requests into the slot pos, in order. */
  function RunWrites(o: DrawSemantics, reqs: seq<DrawRequest>, pos: Rect): (r: seq<Write>)
    ensures Bounded(o) ==> WritesInBounds(r, o.size)
    decreases |reqs|
  {
    if |reqs| == 0 then []
    else
      var prefix := RunWrites(o, reqs[..|reqs| - 1], pos);
      var last := o.writes(reqs[|reqs| - 1], pos);
      WritesInBoundsAppend(prefix, last, o.size);
      prefix + last
  }

  lemma AllAcceptedAppend(o: DrawSemantics, a: seq<DrawRequest>, b: seq<DrawRequest>, pos: Rect)
    ensures AllAccepted(o, a + b, pos) <==> AllAccepted(o, a, pos) && AllAccepted(o, b, pos)
  {
    if AllAccepted(o, a, pos) && AllAccepted(o, b, pos) {
      forall i | 0 <= i < |a + b| ensures o.accepts((a + b)[i], pos) {
        if i >= |a| {
          assert (a + b)[i] == b[i - |a|];
        }
      }
    }
    if AllAccepted(o, a + b, pos) {
      forall i | 0 <= i < |a| ensures o.accepts(a[i], pos) {
        assert (a + b)[i] == a[i];
      }
      forall i | 0 <= i < |b| ensures o.accepts(b[i], pos) {
        assert (a + b)[|a| + i] == b[i];
      }
    }
  }

  lemma AllAcceptedPrefix(o: DrawSemantics, a: seq<DrawRequest>, b: seq<DrawRequest>, pos: Rect)
    requires a <= b && AllAccepted(o, b, pos)
    ensures AllAccepted(o, a, pos)
  {
    forall i | 0 <= i < |a| ensures o.accepts(a[i], pos) {
      assert a[i] == b[i];
    }
  }

  /** The writes of a + b are the writes of a followed by those of b. */
  lemma {:induction false} RunWritesAppend(o: DrawSemantics, a: seq<DrawRequest>, b: seq<DrawRequest>, pos: Rect)
    ensures RunWrites(o, a + b, pos) == RunWrites(o, a, pos) + RunWrites(o, b, pos)
    decreases |b|
  {
    if |b| == 0 {
      assert a + b == a;
    } else {
      var b' := b[..|b| - 1];
      assert (a + b)[..|a + b| - 1] == a + b';
      assert (a + b)[|a + b| - 1] == b[|b| - 1];
      RunWritesAppend(o, a, b', pos);
    }
  }

  /** Painting the run p and then the run q is painting p + q. */
  lemma PaintThen(o: DrawSemantics, p: seq<DrawRequest>, q: seq<DrawRequest>, pos: Rect, a0: seq<Color32>)
    requires Bounded(o) && |a0| == o.size
    ensures AllAccepted(o, p + q, pos) <==> AllAccepted(o, p, pos) && AllAccepted(o, q, pos)
    ensures ApplyWrites(a0, RunWrites(o, p + q, pos))
            == ApplyWrites(ApplyWrites(a0, RunWrites(o, p, pos)), RunWrites(o, q, pos))
  {
    AllAcceptedAppend(o, p, q, pos);
    RunWritesAppend(o, p, q, pos);
    ApplyWritesAppend(a0, RunWrites(o, p, pos), RunWrites(o, q, pos));
  }

  /** A run of one request. */
  lemma RunOfOne(o: DrawSemantics, req: DrawRequest, pos: Rect)
    ensures AllAccepted(o, [req], pos) <==> o.accepts(req, pos)
    ensures RunWrites(o, [req], pos) == o.writes(req, pos)
  {
    assert [req][0] == req;
    assert [req][..0] == [];
  }

  /** One call of DrawFacadeTexture. */
  method Issue(ctx: TextureDataContext, sources: seq<PaintSource>, req: DrawRequest, pos: Rect, ghost o: DrawSemantics)
    returns (ok: bool)
    requires ctx.Valid() && Models(o, ctx.CanvasOf(), sources)
    modifies ctx.colourArray
    ensures ok <==> AllAccepted(o, [req], pos)
    ensures ok ==> ctx.colourArray[..] == ApplyWrites(old(ctx.colourArray[..]), RunWrites(o, [req], pos))
  {
    assert DrawRequest(req.bayBase, req.bayDimensions, req.subMesh, req.flipped) == req;
    ok := DrawFacadeTexture(ctx, sources, req.bayBase, req.bayDimensions, req.subMesh, req.flipped, pos);
    assert ok == Issuable(ctx.CanvasOf(), sources, req, pos);
    RunOfOne(o, req, pos);
  }

  /** A draw made only when its span is positive (`if (span > 0) DrawFacadeTexture(...)`). */
  method IssueIf(ctx: TextureDataContext, sources: seq<PaintSource>, cond: bool, req: DrawRequest, pos: Rect, ghost o: DrawSemantics)
    returns (ok: bool)
    requires ctx.Valid() && Models(o, ctx.CanvasOf(), sources)
    modifies ctx.colourArray
    ensures ok <==> AllAccepted(o, DrawIf(cond, [req]), pos)
    ensures ok ==> ctx.colourArray[..] == ApplyWrites(old(ctx.colourArray[..]), RunWrites(o, DrawIf(cond, [req]), pos))
  {
    if cond {
      ok := Issue(ctx, sources, req, pos, o);
    } else {
      ok := true;
    }
  }

  /** Four draws in a row, each made only when its condition holds. */
  method IssueFour(ctx: TextureDataContext, sources: seq<PaintSource>, c1: bool, r1: DrawRequest, c2: bool, r2: DrawRequest,
                   c3: bool, r3: DrawRequest, c4: bool, r4: DrawRequest, pos: Rect, ghost o: DrawSemantics) returns (ok: bool)
    requires ctx.Valid() && Models(o, ctx.CanvasOf(), sources)
    modifies ctx.colourArray
    ensures var reqs := DrawIf(c1, [r1]) + DrawIf(c2, [r2]) + DrawIf(c3, [r3]) + DrawIf(c4, [r4]);
            (ok <==> AllAccepted(o, reqs, pos))
            && (ok ==> ctx.colourArray[..] == ApplyWrites(old(ctx.colourArray[..]), RunWrites(o, reqs, pos)))
  {
    ghost var p1, p2, p3, p4 := DrawIf(c1, [r1]), DrawIf(c2, [r2]), DrawIf(c3, [r3]), DrawIf(c4, [r4]);
    ghost var a0 := ctx.colourArray[..];
    PaintThen(o, p1, p2, pos, a0);
    PaintThen(o, p1 + p2, p3, pos, a0);
    PaintThen(o, p1 + p2 + p3, p4, pos, a0);
    ok := IssueIf(ctx, sources, c1, r1, pos, o);
    if !ok { return; }
    ok := IssueIf(ctx, sources, c2, r2, pos, o);
    if !ok { return; }
    ok := IssueIf(ctx, sources, c3, r3, pos, o);
    if !ok { return; }
    ok := IssueIf(ctx, sources, c4, r4, pos, o);
  }

  /** The draws of an opening bay with spans s, in the order the source makes them. */
  function OpeningRun(bay: Bay, windowXBase: real, currentFloorBase: real, s: Spans): seq<DrawRequest> {
    [OpeningRequest(bay, windowXBase, currentFloorBase, s)] + JambRequests(bay, windowXBase, currentFloorBase, s)
    + CrossRequests(bay, windowXBase, currentFloorBase, s)
  }

  /** The window, the columns and rows, and the crosses of an opening bay. */
  method DrawOpeningBay(ctx: TextureDataContext, sources: seq<PaintSource>, bayStyle: Bay, windowXBase: real, currentFloorBase: real,
                        leftSpace: real, rightSpace: real, rowBottomHeight: real, rowTopHeight: real, packedPosition: Rect,
                        ghost o: DrawSemantics) returns (ok: bool)
    requires ctx.Valid() && Models(o, ctx.CanvasOf(), sources)
    modifies ctx.colourArray
    ensures var reqs := OpeningRun(bayStyle, windowXBase, currentFloorBase, Spans(leftSpace, rightSpace, rowBottomHeight, rowTopHeight));
            (ok <==> AllAccepted(o, reqs, packedPosition))
            && (ok ==> ctx.colourArray[..] == ApplyWrites(old(ctx.colourArray[..]), RunWrites(o, reqs, packedPosition)))
  {
    var openingSpace := bayStyle.openingWidth;
    var xOpening := windowXBase + leftSpace;
    var xRight := windowXBase + leftSpace + openingSpace;
    var yOpening := currentFloorBase + rowBottomHeight;
    var yTop := currentFloorBase + rowBottomHeight + bayStyle.openingHeight;
    var window := Part(bayStyle, OpeningBack, xOpening, yOpening, openingSpace, bayStyle.openingHeight);
    var columnLeft := Part(bayStyle, Column, windowXBase, yOpening, leftSpace, bayStyle.openingHeight);
    var columnRight := Part(bayStyle, Column, xRight, yOpening, rightSpace, bayStyle.openingHeight);
    var rowBottom := Part(bayStyle, Row, xOpening, currentFloorBase, openingSpace, rowBottomHeight);
    var rowTop := Part(bayStyle, Row, xOpening, yTop, openingSpace, rowTopHeight);
    var crossLeftBottom := Part(bayStyle, Cross, windowXBase, currentFloorBase, leftSpace, rowBottomHeight);
    var crossLeftTop := Part(bayStyle, Cross, windowXBase, yTop, leftSpace, rowTopHeight);
    var crossRightBottom := Part(bayStyle, Cross, xRight, currentFloorBase, rightSpace, rowBottomHeight);
    var crossRightTop := Part(bayStyle, Cross, xRight, yTop, rightSpace, rowTopHeight);
    ghost var spans := Spans(leftSpace, rightSpace, rowBottomHeight, rowTopHeight);
    ghost var jambs := DrawIf(leftSpace > 0.0, [columnLeft]) + DrawIf(rightSpace > 0.0, [columnRight])
                       + DrawIf(rowBottomHeight > 0.0, [rowBottom]) + DrawIf(rowTopHeight > 0.0, [rowTop]);
    ghost var crosses := DrawIf(leftSpace > 0.0, [crossLeftBottom]) + DrawIf(leftSpace > 0.0, [crossLeftTop])
                         + DrawIf(rightSpace > 0.0, [crossRightBottom]) + DrawIf(rightSpace > 0.0, [crossRightTop]);
    assert jambs == JambRequests(bayStyle, windowXBase, currentFloorBase, spans);
    assert crosses == CrossRequests(bayStyle, windowXBase, currentFloorBase, spans);
    assert OpeningRun(bayStyle, windowXBase, currentFloorBase, spans) == [window] + jambs + crosses;
    ghost var a0 := ctx.colourArray[..];
    PaintThen(o, [window], jambs, packedPosition, a0);
    PaintThen(o, [window] + jambs, crosses, packedPosition, a0);

    ok := Issue(ctx, sources, window, packedPosition, o);
    if !ok { return; }
    ok := IssueFour(ctx, sources, leftSpace > 0.0, columnLeft, rightSpace > 0.0, columnRight,
                    rowBottomHeight > 0.0, rowBottom, rowTopHeight > 0.0, rowTop, packedPosition, o);
    if !ok { return; }
    ok := IssueFour(ctx, sources, leftSpace > 0.0, crossLeftBottom, leftSpace > 0.0, crossLeftTop,
                    rightSpace > 0.0, crossRightBottom, rightSpace > 0.0, crossRightTop, packedPosition, o);
  }

  /** One bay of a windowed floor (the body of the bay loop): its draws are BayRequests, and
      windowXBase moves on by the bay's advance. */
  method DrawBay(ctx: TextureDataContext, sources: seq<PaintSource>, bayStyle: Bay, windowXBase: real, currentFloorBase: real,
                 floorHeight: real, perBayAdditionalSpacing: real, packedPosition: Rect, ghost o: DrawSemantics,
                 ghost layout: (Bay, real) -> seq<DrawRequest>) returns (ok: bool, nextXBase: real)
    requires ctx.Valid() && Models(o, ctx.CanvasOf(), sources)
    requires LaysOut(layout, currentFloorBase, floorHeight, perBayAdditionalSpacing)
    modifies ctx.colourArray
    ensures var reqs := layout(bayStyle, windowXBase);
            (ok <==> AllAccepted(o, reqs, packedPosition))
            && (ok ==> ctx.colourArray[..] == ApplyWrites(old(ctx.colourArray[..]), RunWrites(o, reqs, packedPosition)))
    ensures nextXBase == windowXBase + Advance(bayStyle, perBayAdditionalSpacing)
  {
    var actualWindowSpacing := bayStyle.spacing + perBayAdditionalSpacing;
    var leftSpace := actualWindowSpacing * bayStyle.openingWidthRatio;
    var rightSpace := actualWindowSpacing - leftSpace;
    var openingSpace := bayStyle.openingWidth;
    if !bayStyle.isOpening {
      var bayWidth := openingSpace + actualWindowSpacing;
      var wall := Part(bayStyle, Wall, windowXBase, currentFloorBase, bayWidth, floorHeight);
      assert layout(bayStyle, windowXBase) == BayRequests(bayStyle, windowXBase, currentFloorBase, floorHeight, perBayAdditionalSpacing) == [wall];
      ok := Issue(ctx, sources, wall, packedPosition, o);
      nextXBase := windowXBase + bayWidth;
      return;
    }
    var rowBottomHeight := (floorHeight - bayStyle.openingHeight) * bayStyle.openingHeightRatio;
    var rowTopHeight := floorHeight - rowBottomHeight - bayStyle.openingHeight;
    assert Spans(leftSpace, rightSpace, rowBottomHeight, rowTopHeight) == BaySpans(bayStyle, floorHeight, perBayAdditionalSpacing);
    assert layout(bayStyle, windowXBase) == BayRequests(bayStyle, windowXBase, currentFloorBase, floorHeight, perBayAdditionalSpacing)
           == OpeningRun(bayStyle, windowXBase, currentFloorBase, Spans(leftSpace, rightSpace, rowBottomHeight, rowTopHeight));
    ok := DrawOpeningBay(ctx, sources, bayStyle, windowXBase, currentFloorBase, leftSpace, rightSpace, rowBottomHeight, rowTopHeight,
                         packedPosition, o);
    nextXBase := windowXBase + leftSpace + openingSpace + rightSpace;
  }

  /** The bays array of a windowed floor: the pattern's bays looked up one by one, or the
      simple bay. */
  method GatherBays(d: Data, facade: Facade) returns (ok: bool, bays: seq<Bay>)
    requires facade.isPatterned ==> |facade.bayPattern| > 0
    ensures ok <==> BayDesigns(d, facade).Some?
    ensures ok ==> bays == BayDesigns(d, facade).value
  {
    if !facade.isPatterned {
      return true, [facade.simpleBay];
    }
    var numberOfBayDesigns := |facade.bayPattern|;
    bays := [];
    for i := 0 to numberOfBayDesigns
      invariant |bays| == i
      invariant forall k :: 0 <= k < i ==> 0 <= facade.bayPattern[k] < |d.bays| && bays[k] == d.bays[facade.bayPattern[k]]
    {
      var index := facade.bayPattern[i];
      if !(0 <= index < |d.bays|) {
        return false, bays;
      }
      bays := bays + [d.bays[index]];
    }
    ok := true;
  }

  /** layout gives the draws of a bay at a windowXBase on the floor at currentFloorBase. */
  ghost predicate LaysOut(layout: (Bay, real) -> seq<DrawRequest>, currentFloorBase: real, floorHeight: real, perBay: real) {
    forall bay, x {:trigger BayRequests(bay, x, currentFloorBase, floorHeight, perBay)} ::
      layout(bay, x) == BayRequests(bay, x, currentFloorBase, floorHeight, perBay)
  }

  /** The draws of bays 0 .. c - 1 under layout, each at its windowXBase. */
  function BaysLaidOut(layout: (Bay, real) -> seq<DrawRequest>, bays: seq<Bay>, c: nat, perBay: real): seq<DrawRequest>
    requires |bays| > 0
  {
    if c == 0 then []
    else BaysLaidOut(layout, bays, c - 1, perBay) + layout(bays[(c - 1) % |bays|], XBase(bays, c - 1, perBay))
  }

  lemma {:induction false} BaysLaidOutPrefix(layout: (Bay, real) -> seq<DrawRequest>, bays: seq<Bay>, c: nat, n: nat, perBay: real)
    requires |bays| > 0 && c <= n
    ensures BaysLaidOut(layout, bays, c, perBay) <= BaysLaidOut(layout, bays, n, perBay)
    decreases n - c
  {
    if c < n {
      BaysLaidOutPrefix(layout, bays, c, n - 1, perBay);
    }
  }

  /** Under the floor's layout, the bay loop's draws are the floor's BaysRequests. */
  lemma {:induction false} BaysLaidOutIsBaysRequests(layout: (Bay, real) -> seq<DrawRequest>, bays: seq<Bay>, c: nat, perBay: real,
                                                     currentFloorBase: real, floorHeight: real)
    requires |bays| > 0 && LaysOut(layout, currentFloorBase, floorHeight, perBay)
    ensures BaysLaidOut(layout, bays, c, perBay) == BaysRequests(bays, c, perBay, currentFloorBase, floorHeight)
  {
    if c > 0 {
      BaysLaidOutIsBaysRequests(layout, bays, c - 1, perBay, currentFloorBase, floorHeight);
      assert layout(bays[(c - 1) % |bays|], XBase(bays, c - 1, perBay))
             == BayRequests(bays[(c - 1) % |bays|], XBase(bays, c - 1, perBay), currentFloorBase, floorHeight, perBay);
    }
  }

  /** The buffer holds a0 painted with the accepted run reqs. */
  ghost predicate Painted(ctx: TextureDataContext, o: DrawSemantics, reqs: seq<DrawRequest>, pos: Rect, a0: seq<Color32>)
    reads ctx, ctx.colourArray
  {
    Bounded(o) && |a0| == o.size && AllAccepted(o, reqs, pos)
    && ctx.colourArray[..] == ApplyWrites(a0, RunWrites(o, reqs, pos))
  }

  /** Bay bayIndex of the bay loop, drawn after bays 0 .. bayIndex - 1. */
  method DrawNextBay(ctx: TextureDataContext, sources: seq<PaintSource>, facade: Facade, bays: seq<Bay>, bayIndex: nat,
                     windowXBase: real, perBayAdditionalSpacing: real, currentFloorBase: real, floorHeight: real,
                     packedPosition: Rect, ghost o: DrawSemantics, ghost layout: (Bay, real) -> seq<DrawRequest>,
                     ghost a0: seq<Color32>) returns (ok: bool, nextXBase: real)
    requires ctx.Valid() && Models(o, ctx.CanvasOf(), sources) && |bays| > 0
    requires LaysOut(layout, currentFloorBase, floorHeight, perBayAdditionalSpacing)
    requires facade.isPatterned ==> |bays| == |facade.bayPattern|
    requires !facade.isPatterned ==> bays == [facade.simpleBay]
    requires windowXBase == XBase(bays, bayIndex, perBayAdditionalSpacing)
    requires Painted(ctx, o, BaysLaidOut(layout, bays, bayIndex, perBayAdditionalSpacing), packedPosition, a0)
    modifies ctx.colourArray
    ensures var reqs := BaysLaidOut(layout, bays, bayIndex + 1, perBayAdditionalSpacing);
            (ok <==> AllAccepted(o, reqs, packedPosition))
            && (ok ==> Painted(ctx, o, reqs, packedPosition, a0))
    ensures nextXBase == XBase(bays, bayIndex + 1, perBayAdditionalSpacing)
  {
    var bayStyle := if facade.isPatterned then bays[bayIndex % |facade.bayPattern|] else facade.simpleBay;
    assert bayStyle == bays[bayIndex % |bays|];
    ghost var done := BaysLaidOut(layout, bays, bayIndex, perBayAdditionalSpacing);
    ghost var step := layout(bayStyle, windowXBase);
    assert BaysLaidOut(layout, bays, bayIndex + 1, perBayAdditionalSpacing) == done + step;
    PaintThen(o, done, step, packedPosition, a0);
    ok, nextXBase := DrawBay(ctx, sources, bayStyle, windowXBase, currentFloorBase, floorHeight, perBayAdditionalSpacing, packedPosition, o, layout);
  }

  /** The bay loop of a windowed floor: bay c is drawn with windowXBase at XBase(c). */
  method DrawBays(ctx: TextureDataContext, sources: seq<PaintSource>, facade: Facade, bays: seq<Bay>, numberOfBays: nat,
                  perBayAdditionalSpacing: real, currentFloorBase: real, floorHeight: real, packedPosition: Rect,
                  ghost o: DrawSemantics, ghost layout: (Bay, real) -> seq<DrawRequest>) returns (ok: bool)
    requires ctx.Valid() && Models(o, ctx.CanvasOf(), sources) && |bays| > 0
    requires LaysOut(layout, currentFloorBase, floorHeight, perBayAdditionalSpacing)
    requires facade.isPatterned ==> |bays| == |facade.bayPattern|
    requires !facade.isPatterned ==> bays == [facade.simpleBay]
    modifies ctx.colourArray
    ensures var reqs := BaysLaidOut(layout, bays, numberOfBays, perBayAdditionalSpacing);
            (ok <==> AllAccepted(o, reqs, packedPosition))
            && (ok ==> ctx.colourArray[..] == ApplyWrites(old(ctx.colourArray[..]), RunWrites(o, reqs, packedPosition)))
  {
    ghost var a0 := ctx.colourArray[..];
    var windowXBase := 0.0;
    var bayIndex := 0;
    ok := true;
    while ok && bayIndex < numberOfBays
      invariant 0 <= bayIndex <= numberOfBays
      invariant ok ==> windowXBase == XBase(bays, bayIndex, perBayAdditionalSpacing)
                       && Painted(ctx, o, BaysLaidOut(layout, bays, bayIndex, perBayAdditionalSpacing), packedPosition, a0)
      invariant !ok ==> bayIndex < numberOfBays
                        && !AllAccepted(o, BaysLaidOut(layout, bays, bayIndex + 1, perBayAdditionalSpacing), packedPosition)
      decreases numberOfBays - bayIndex, ok
    {
      ok, windowXBase := DrawNextBay(ctx, sources, facade, bays, bayIndex, windowXBase, perBayAdditionalSpacing,
                                     currentFloorBase, floorHeight, packedPosition, o, layout, a0);
      if ok {
        bayIndex := bayIndex + 1;
      }
    }
    if !ok {
      var failed := BaysLaidOut(layout, bays, bayIndex + 1, perBayAdditionalSpacing);
      var all := BaysLaidOut(layout, bays, numberOfBays, perBayAdditionalSpacing);
      BaysLaidOutPrefix(layout, bays, bayIndex + 1, numberOfBays, perBayAdditionalSpacing);
      if AllAccepted(o, all, packedPosition) {
        AllAcceptedPrefix(o, failed, all, packedPosition);
      }
    }
  }

  /** The requests of floor r exist and can all be issued. */
  predicate FloorAccepted(o: DrawSemantics, d: Data, facade: Facade, facadeWidth: real, floorHeight: real, r: nat, pos: Rect) {
    var reqs := FloorRequests(d, facade, facadeWidth, floorHeight, r);
    reqs.Some? && AllAccepted(o, reqs.value, pos)
  }

  /** One floor of a facade: a blank floor is one wall draw; otherwise the bays are fitted and
      drawn left to right. */
  method DrawFloor(ctx: TextureDataContext, sources: seq<PaintSource>, d: Data, facade: Facade, facadeWidth: real,
                   floorHeight: real, r: nat, packedPosition: Rect, ghost o: DrawSemantics) returns (ok: bool)
    requires ctx.Valid() && Models(o, ctx.CanvasOf(), sources)
    modifies ctx.colourArray
    ensures ok <==> FloorAccepted(o, d, facade, facadeWidth, floorHeight, r, packedPosition)
    ensures ok ==> ctx.colourArray[..] == ApplyWrites(old(ctx.colourArray[..]),
                     RunWrites(o, FloorRequests(d, facade, facadeWidth, floorHeight, r).value, packedPosition))
  {
    var currentFloorBase := floorHeight * r as real;
    var isBlankWall := !facade.hasWindows;
    if facade.isPatterned {
      // BayPattern[0] and Bays[...] are read before the Count test, which can then never hold.
      if |facade.bayPattern| == 0 || !(0 <= facade.bayPattern[0] < |d.bays|) {
        return false;
      }
      var firstBay := d.bays[facade.bayPattern[0]];
      if firstBay.openingWidth > facadeWidth {
        isBlankWall := true;
      }
    } else {
      if facade.simpleBay.openingWidth + facade.simpleBay.spacing > facadeWidth {
        isBlankWall := true;
      }
    }
    assert IsBlankWall(d, facade, facadeWidth) == Some(isBlankWall);
    if isBlankWall {
      var wall := Part(facade.simpleBay, Wall, 0.0, currentFloorBase, facadeWidth, floorHeight);
      assert FloorRequests(d, facade, facadeWidth, floorHeight, r) == Some([wall]);
      ok := Issue(ctx, sources, wall, packedPosition, o);
      return;
    }
    var bays;
    ok, bays := GatherBays(d, facade);
    if !ok {
      assert FloorRequests(d, facade, facadeWidth, floorHeight, r) == None;
      return;
    }
    var numberOfBays, patternSize := FitBays(bays, facadeWidth);
    var perBayAdditionalSpacing := if numberOfBays == 0 then 0.0 else (facadeWidth - patternSize) / numberOfBays as real;
    assert perBayAdditionalSpacing == PerBaySpacing(facadeWidth, PatternPrefix(bays, numberOfBays), numberOfBays);
    ghost var layout := (bay: Bay, x: real) => BayRequests(bay, x, currentFloorBase, floorHeight, perBayAdditionalSpacing);
    ok := DrawBays(ctx, sources, facade, bays, numberOfBays, perBayAdditionalSpacing, currentFloorBase, floorHeight, packedPosition, o, layout);
    BaysLaidOutIsBaysRequests(layout, bays, numberOfBays, perBayAdditionalSpacing, currentFloorBase, floorHeight);
    assert FloorRequests(d, facade, facadeWidth, floorHeight, r)
        == Some(BaysRequests(bays, numberOfBays, perBayAdditionalSpacing, currentFloorBase, floorHeight));
  }
}
