/** The two entry points of LowDetailBuilder. BuildTextures gathers the source textures, paints
    every facade into the atlas and copies the roof textures after them; Build plans and sizes
    the atlas, has it painted, and emits the simplified building's mesh with UVs into it. */
module LowDetail {
  import opened Pixels
  import opened BuildingData
  import opened AtlasContext
  import opened FacadePaint
  import opened FacadeSlots
  import opened FacadePass
  import opened FacadeComposite
  import opened RoofSlots
  import opened AtlasSizing
  import opened RoofPass
  import opened Sequences

  // ---------------------------------------------------------------------------------------
  // Source textures

  /** The TexturePaintObject of a texture: a tiled texture is resampled to the pixel size of
      one tile unit at the packed scale, an untiled one keeps its pixels and size. Both keep
      the user's tiling. */
  function SourceOf(t: Texture, e: Engine, packedScale: real): PaintSource {
    var tiles := Vec2(t.tiledX, t.tiledY);
    if t.tiled then
      var w := Round(ScaledPixels(t.unitSize.x, packedScale));
      var h := Round(ScaledPixels(t.unitSize.y, packedScale));
      PaintSource(e.resample(t.pixels, t.width, t.height, w, h), w, h, true, tiles)
    else
      PaintSource(t.pixels, t.width, t.height, false, tiles)
  }

  /** The source texture of every texture of the building, in order. */
  function Sources(textures: seq<Texture>, e: Engine, packedScale: real): (r: seq<PaintSource>)
    ensures |r| == |textures|
  {
    seq(|textures|, i requires 0 <= i < |textures| => SourceOf(textures[i], e, packedScale))
  }

  /** The contract assumed of TextureScale.NearestNeighbourSample: it returns one pixel per
      position of the requested size. */
  ghost predicate ResamplerHonoursSize(e: Engine) {
    forall px, w, h, nw, nh :: 0 <= nw && 0 <= nh ==> |e.resample(px, w, h, nw, nh)| == nw * nh
  }

  /** When a source texture can be painted from: an untiled one exactly when its main texture
      has a size and pixels; a tiled one whenever a tile unit covers at least one atlas pixel
      each way, and never when it covers none. */
  lemma SourceReadable(t: Texture, e: Engine, packedScale: real)
    requires ResamplerHonoursSize(e)
    ensures var w := Round(ScaledPixels(t.unitSize.x, packedScale));
            var h := Round(ScaledPixels(t.unitSize.y, packedScale));
            var source := SourceOf(t, e, packedScale);
            source.tiled == t.tiled && source.tiles == Vec2(t.tiledX, t.tiledY)
            && (!t.tiled ==> (Readable(source) <==> t.width != 0 && t.height != 0 && |t.pixels| > 0))
            && (t.tiled && w > 0 && h > 0 ==> Readable(source) && |source.pixels| == w * h)
            && (t.tiled && (w == 0 || h == 0) ==> !Readable(source))
  {
    var w := Round(ScaledPixels(t.unitSize.x, packedScale));
    var h := Round(ScaledPixels(t.unitSize.y, packedScale));
    if t.tiled && w > 0 && h > 0 {
      assert |e.resample(t.pixels, t.width, t.height, w, h)| == w * h;
      assert w * h >= w;
    }
  }

  /** The gathering loop of BuildTextures: one source texture per texture, in order. */
  method PrepareSources(textures: seq<Texture>, e: Engine, packedScale: real) returns (sourceTextures: seq<PaintSource>)
    ensures sourceTextures == Sources(textures, e, packedScale)
  {
    var buildSourceTextures: seq<PaintSource> := [];
    for i := 0 to |textures|
      invariant |buildSourceTextures| == i
      invariant forall k :: 0 <= k < i ==> buildSourceTextures[k] == SourceOf(textures[k], e, packedScale)
    {
      var btexture := textures[i];
      var texturePaintObject := PaintSource(btexture.pixels, btexture.width, btexture.height, true, Vec2(btexture.tiledX, btexture.tiledY));
      if btexture.tiled {
        var resizedTextureWidth := Round(ScaledPixels(btexture.unitSize.x, packedScale));
        var resizedTextureHeight := Round(ScaledPixels(btexture.unitSize.y, packedScale));
        texturePaintObject := texturePaintObject.(
          pixels := e.resample(texturePaintObject.pixels, texturePaintObject.width, texturePaintObject.height, resizedTextureWidth, resizedTextureHeight),
          width := resizedTextureWidth,
          height := resizedTextureHeight);
      } else {
        texturePaintObject := texturePaintObject.(tiled := false);
      }
      buildSourceTextures := buildSourceTextures + [texturePaintObject];
    }
    sourceTextures := buildSourceTextures;
  }

  // ---------------------------------------------------------------------------------------
  // BuildTextures

  /** The facade draw of every edge on canvas c, with the building's source textures. */
  function FacadeDraw(c: Canvas, d: Data, e: Engine): EdgeSemantics
    requires c.textureWidth >= 0
  {
    EdgeSemanticsOf(DrawSemanticsOf(c, Sources(d.textures, e, c.packedScale)), d, e)
  }

  /** The roof pass after the facades: roof texture i goes to slot |VisibleEdges(d)| + i. */
  function RoofOutcome(c: Canvas, d: Data, e: Engine, positions: seq<Rect>, roofTextures: seq<Texture>): Outcome
    requires WellFormed(d)
  {
    PassOutcome(c, e, positions, roofTextures, |VisibleEdges(d)|, |roofTextures|)
  }

  /** BuildTextures returns normally: the building has a facade design (data.Facades[0] is
      read), every facade draws, and the roof pass raises nothing. A roof pass that stops at
      a pixel past the atlas still returns normally. */
  predicate TexturesOk(c: Canvas, d: Data, e: Engine, positions: seq<Rect>, roofTextures: seq<Texture>)
    requires WellFormed(d) && c.textureWidth >= 0
  {
    var m := FacadeDraw(c, d, e);
    |d.facades| > 0
    && PassOk(m, d, positions) && PassAccepted(m, d, positions, |VisibleEdges(d)|)
    && !RoofOutcome(c, d, e, positions, roofTextures).Faulted?
  }

  /** Every write of BuildTextures: the facades, edge by edge, then the roof textures. */
  function TextureWrites(c: Canvas, d: Data, e: Engine, positions: seq<Rect>, roofTextures: seq<Texture>): (r: seq<Write>)
    requires WellFormed(d) && c.textureWidth >= 0 && TexturesOk(c, d, e, positions, roofTextures)
    ensures WritesInBounds(r, c.textureSize)
  {
    var facades := PassWrites(FacadeDraw(c, d, e), d, positions, |VisibleEdges(d)|);
    var roofs := RoofOutcome(c, d, e, positions, roofTextures).writes;
    WritesInBoundsAppend(facades, roofs, c.textureSize);
    facades + roofs
  }

  /** BuildTextures: returns normally exactly when TexturesOk holds, and the atlas then holds
      the facade writes followed by the roof writes. */
  method BuildTextures(d: Data, e: Engine, ctx: TextureDataContext) returns (ok: bool)
    requires WellFormed(d) && ctx.Valid()
    modifies ctx.colourArray
    ensures ok <==> TexturesOk(ctx.CanvasOf(), d, e, ctx.packedTexturePositions, ctx.roofTextures)
    ensures ok ==> ctx.colourArray[..] == ApplyWrites(old(ctx.colourArray[..]),
                     TextureWrites(ctx.CanvasOf(), d, e, ctx.packedTexturePositions, ctx.roofTextures))
  {
    ghost var s0 := ctx.colourArray[..];
    ghost var c := ctx.CanvasOf();
    var sourceTextures := PrepareSources(d.textures, e, ctx.packedScale);
    if |d.facades| == 0 {
      return false;
    }
    ghost var o := DrawSemanticsOf(c, sourceTextures);
    ghost var m := EdgeSemanticsOf(o, d, e);
    assert m == FacadeDraw(c, d, e);
    var facadeNumber;
    ok, facadeNumber := CompositeFacades(ctx, sourceTextures, d, e, o, m);
    if !ok {
      return;
    }
    ghost var s1 := ctx.colourArray[..];
    var st := CopyRoofTextures(ctx, e, facadeNumber);
    ok := st != Fail;
    if ok {
      var facades := PassWrites(m, d, ctx.packedTexturePositions, facadeNumber);
      var roofs := RoofOutcome(c, d, e, ctx.packedTexturePositions, ctx.roofTextures).writes;
      ApplyWritesAppend(s0, facades, roofs);
    }
  }

  // ---------------------------------------------------------------------------------------
  // The mesh

  /** One call Build makes on the output mesh: AddData, AddPlane, or the roof mesh atlased to
      the roof slots and added as data. */
  datatype MeshCall =
    | AddData(verts: seq<Vec3>, uvs: seq<Vec2>, tris: seq<int>, subMesh: int)
    | AddPlane(w0: Vec3, w1: Vec3, w2: Vec3, w3: Vec3, uvMin: Vec2, uvMax: Vec2, subMesh: int)
    | AddAtlasedRoof(textureIndices: seq<int>, uvRects: seq<Rect>, subMesh: int)

  /** Reversing a triangle list turns every triangle around: triangle j of the result is
      triangle n - 1 - j of the input with its corners in the opposite order, so the underside
      faces the other way from the plan's triangulation. */
  lemma ReverseFlipsTriangles(t: seq<int>, n: nat, j: nat)
    requires |t| == 3 * n && j < n
    ensures 3 * j + 2 < |t| && 3 * (n - 1 - j) + 2 < |t|
    ensures Reversed(t)[3 * j] == t[3 * (n - 1 - j) + 2]
    ensures Reversed(t)[3 * j + 1] == t[3 * (n - 1 - j) + 1]
    ensures Reversed(t)[3 * j + 2] == t[3 * (n - 1 - j)]
  {
    var r := Reversed(t);
    assert r[3 * j] == t[|t| - 1 - 3 * j];
    assert r[3 * j + 1] == t[|t| - 1 - (3 * j + 1)];
    assert r[3 * j + 2] == t[|t| - 1 - (3 * j + 2)];
  }

  /** The underside of volume s: its outline in space with zero UVs, and the plan's
      triangulation of the volume turned around, in submesh 0. */
  function Underside(d: Data, e: Engine, s: nat): MeshCall
    requires WellFormed(d) && s < |d.plan.volumes|
  {
    var volume := d.plan.volumes[s];
    assert VolumeFits(d.plan, volume);
    AddData(seq(|volume.points|, i requires 0 <= i < |volume.points| => e.lift(d.plan.points[volume.points[i]])),
            seq(|volume.points|, _ => Vec2(0.0, 0.0)),
            Reversed(d.plan.trianglesBySectorBase(s)),
            0)
  }

  function Undersides(d: Data, e: Engine): (r: seq<MeshCall>)
    requires WellFormed(d)
    ensures |r| == |d.plan.volumes|
  {
    seq(|d.plan.volumes|, s requires 0 <= s < |d.plan.volumes| => Underside(d, e, s))
  }

  /** The vertex loop of one underside: the outline of volume s in space, with zero UVs. */
  method Outline(d: Data, e: Engine, s: nat) returns (verts: seq<Vec3>, uvs: seq<Vec2>)
    requires WellFormed(d) && s < |d.plan.volumes|
    ensures Underside(d, e, s).verts == verts && Underside(d, e, s).uvs == uvs
  {
    var plan := d.plan;
    var volume := plan.volumes[s];
    assert VolumeFits(plan, volume);
    var numberOfVolumePoints := |volume.points|;
    var newEndVerts := new Vec3[numberOfVolumePoints](_ => Vec3(0.0, 0.0, 0.0));
    var newEndUVs := new Vec2[numberOfVolumePoints](_ => Vec2(0.0, 0.0));
    for i := 0 to numberOfVolumePoints
      invariant forall k :: 0 <= k < i ==> newEndVerts[k] == e.lift(plan.points[volume.points[k]])
      invariant forall k :: 0 <= k < i ==> newEndUVs[k] == Vec2(0.0, 0.0)
    {
      newEndVerts[i] := e.lift(plan.points[volume.points[i]]);
      newEndUVs[i] := Vec2(0.0, 0.0);
    }
    verts, uvs := newEndVerts[..], newEndUVs[..];
  }

  /** The underside loop of Build. */
  method AddUndersides(d: Data, e: Engine) returns (calls: seq<MeshCall>)
    requires WellFormed(d)
    ensures calls == Undersides(d, e)
  {
    calls := [];
    var plan := d.plan;
    var numberOfVolumes := |plan.volumes|;
    for s := 0 to numberOfVolumes
      invariant |calls| == s
      invariant forall k :: 0 <= k < s ==> calls[k] == Underside(d, e, k)
    {
      var newEndVerts, newEndUVs := Outline(d, e, s);
      var tris := Reversed(plan.trianglesBySectorBase(s));
      calls := calls + [AddData(newEndVerts, newEndUVs, tris, 0)];
    }
  }

  /** The wall of one visible edge: the edge's endpoints raised to its base floor, the same
      two points raised by the height of the floors above it, and the UVs of the corners of
      its packed slot in a square atlas of side textureWidth. */
  function FacadePlane(d: Data, e: Engine, edge: Edge, facadeRect: Rect, textureWidth: int): MeshCall
    requires Addressable(d, edge)
  {
    WallPlane(e.lift(d.plan.points[edge.pointA]), e.lift(d.plan.points[edge.pointB]),
              edge.floorBase as real * d.floorHeight,
              d.plan.volumes[edge.volume].numberOfFloors as real * d.floorHeight,
              facadeRect, textureWidth)
  }

  /** The wall between the ground points a and b from height base up to height top. */
  function WallPlane(a: Vec3, b: Vec3, base: real, top: real, facadeRect: Rect, textureWidth: int): MeshCall {
    var floorHeightStart := Up(base);
    var wallHeight := Up(top).Minus(floorHeightStart);
    var w0 := a.Plus(floorHeightStart);
    var w1 := b.Plus(floorHeightStart);
    AddPlane(w0, w1, w0.Plus(wallHeight), w1.Plus(wallHeight), UvMin(facadeRect, textureWidth), UvMax(facadeRect, textureWidth), 0)
  }

  /** The UVs of the lower left and upper right corners of a slot. */
  function UvMin(r: Rect, textureWidth: int): Vec2 {
    var imageSize := textureWidth as real;
    Vec2(Ratio(r.x, imageSize), Ratio(r.y, imageSize))
  }

  function UvMax(r: Rect, textureWidth: int): Vec2 {
    var imageSize := textureWidth as real;
    Vec2(Ratio(r.XMax(), imageSize), Ratio(r.YMax(), imageSize))
  }

  /** A facade plane stands on the edge at its base floor, is as tall as the floors the volume
      has above that base, and its top edge is its bottom edge moved straight up. */
  lemma FacadePlaneShape(d: Data, e: Engine, edge: Edge, facadeRect: Rect, textureWidth: int)
    requires Addressable(d, edge)
    ensures var p := FacadePlane(d, e, edge, facadeRect, textureWidth);
            var a := e.lift(d.plan.points[edge.pointA]);
            var b := e.lift(d.plan.points[edge.pointB]);
            var base := edge.floorBase as real * d.floorHeight;
            var height := (d.plan.volumes[edge.volume].numberOfFloors - edge.floorBase) as real * d.floorHeight;
            p.AddPlane? && p.subMesh == 0
            && p.w0 == Vec3(a.x, a.y + base, a.z) && p.w1 == Vec3(b.x, b.y + base, b.z)
            && p.w2 == Vec3(a.x, a.y + base + height, a.z) && p.w3 == Vec3(b.x, b.y + base + height, b.z)
  {
  }

  /** The UVs of a slot inside the atlas lie in the unit square, and in order when the slot's
      size is not negative. */
  lemma PlaneUvsInUnitSquare(facadeRect: Rect, textureWidth: int)
    requires textureWidth > 0 && InBin(facadeRect, textureWidth as real)
    ensures var uvMin := UvMin(facadeRect, textureWidth);
            var uvMax := UvMax(facadeRect, textureWidth);
            0.0 <= uvMin.x && 0.0 <= uvMin.y && uvMax.x <= 1.0 && uvMax.y <= 1.0
            && (facadeRect.width >= 0.0 ==> uvMin.x <= uvMax.x)
            && (facadeRect.height >= 0.0 ==> uvMin.y <= uvMax.y)
  {
    var w := textureWidth as real;
    RatioMonotone(0.0, facadeRect.x, w);
    RatioMonotone(0.0, facadeRect.y, w);
    RatioAtMostOne(facadeRect.XMax(), w);
    RatioAtMostOne(facadeRect.YMax(), w);
    if facadeRect.width >= 0.0 {
      RatioMonotone(facadeRect.x, facadeRect.XMax(), w);
    }
    if facadeRect.height >= 0.0 {
      RatioMonotone(facadeRect.y, facadeRect.YMax(), w);
    }
  }

  lemma RatioMonotone(a: real, b: real, w: real)
    requires a <= b && w > 0.0
    ensures Ratio(a, w) <= Ratio(b, w)
  {
    assert b / w - a / w == (b - a) / w;
  }

  lemma RatioAtMostOne(a: real, w: real)
    requires a <= w && w > 0.0
    ensures Ratio(a, w) <= 1.0
  {
    RatioMonotone(a, w, w);
  }

  /** calls holds the plane of every listed edge, the k-th in slot k. */
  predicate PlanesBuilt(d: Data, e: Engine, calls: seq<MeshCall>, edges: seq<Edge>, positions: seq<Rect>, textureWidth: int) {
    |calls| == |edges| <= |positions| && AllAddressable(d, edges)
    && forall k :: 0 <= k < |calls| ==> calls[k] == FacadePlane(d, e, edges[k], positions[k], textureWidth)
  }

  lemma PlanesBuiltAppend(d: Data, e: Engine, calls: seq<MeshCall>, edges: seq<Edge>, positions: seq<Rect>, textureWidth: int, x: Edge)
    requires PlanesBuilt(d, e, calls, edges, positions, textureWidth) && Addressable(d, x) && |edges| < |positions|
    ensures PlanesBuilt(d, e, calls + [FacadePlane(d, e, x, positions[|edges|], textureWidth)], edges + [x], positions, textureWidth)
  {
    forall k | 0 <= k < |edges + [x]| ensures Addressable(d, (edges + [x])[k]) {
      if k < |edges| { assert (edges + [x])[k] == edges[k]; }
    }
  }

  /** The wall corners and slot UVs of one facade plane: the ground points p0 and p1 raised to
      the base height, and the wall raised from there to the top height. */
  method MakeWallPlane(p0: Vec3, p1: Vec3, baseHeight: real, topHeight: real, facadeRect: Rect, textureWidth: int)
    returns (plane: MeshCall)
    ensures plane == WallPlane(p0, p1, baseHeight, topHeight, facadeRect, textureWidth)
  {
    var floorHeightStart := Up(baseHeight);
    var wallHeight := Up(topHeight).Minus(floorHeightStart);
    var w0 := p0.Plus(floorHeightStart);
    var w1 := p1.Plus(floorHeightStart);
    var w2 := w0.Plus(wallHeight);
    var w3 := w1.Plus(wallHeight);
    var imageSize := textureWidth as real;
    var uvMin := Vec2(Ratio(facadeRect.x, imageSize), Ratio(facadeRect.y, imageSize));
    var uvMax := Vec2(Ratio(facadeRect.XMax(), imageSize), Ratio(facadeRect.YMax(), imageSize));
    plane := AddPlane(w0, w1, w2, w3, uvMin, uvMax, 0);
  }

  /** The body of Build's facade loop for edge f of volume v: whether the edge gets a plane,
      and that plane, cut from slot facadeIndex. */
  method PlaneEdge(d: Data, e: Engine, v: nat, f: nat, positions: seq<Rect>, facadeIndex: nat, textureWidth: int)
    returns (visible: bool, plane: MeshCall)
    requires WellFormed(d) && EdgeExists(d, v, f)
    requires IsVisible(d, v, f) ==> facadeIndex < |positions|
    ensures visible == IsVisible(d, v, f)
    ensures visible ==> plane == FacadePlane(d, e, EdgeAt(d, v, f), positions[facadeIndex], textureWidth)
  {
    VisibleStep(d, e, v, f);
    ghost var edge := EdgeAt(d, v, f);
    var plan := d.plan;
    var volume := plan.volumes[v];
    assert VolumeFits(plan, volume);
    var numberOfVolumePoints := |volume.points|;
    plane := AddData([], [], [], 0);
    if !volume.renderFacade[f] {
      return false, plane;
    }
    var indexA := f;
    var indexB := if f < numberOfVolumePoints - 1 then f + 1 else 0;
    assert edge.pointA == volume.points[indexA] && edge.pointB == volume.points[indexB];
    var p0 := e.lift(plan.points[volume.points[indexA]]);
    var p1 := e.lift(plan.points[volume.points[indexB]]);
    var floorBase := plan.facadeFloorHeight(v, volume.points[indexA], volume.points[indexB]);
    assert edge.floorBase == floorBase;
    var numberOfFloors := volume.numberOfFloors - floorBase;
    if numberOfFloors < 1 {
      return false, plane;
    }
    var floorHeight := d.floorHeight;
    plane := MakeWallPlane(p0, p1, floorBase as real * floorHeight, volume.numberOfFloors as real * floorHeight,
                           positions[facadeIndex], textureWidth);
    visible := true;
  }

  /** The edge loop of one volume in Build's facade loop. */
  method AddVolumePlanes(d: Data, e: Engine, v: nat, positions: seq<Rect>, textureWidth: int, calls0: seq<MeshCall>, facadeIndex0: nat)
    returns (calls: seq<MeshCall>, facadeIndex: nat)
    requires WellFormed(d) && v < |d.plan.volumes| && |VisibleEdges(d)| <= |positions|
    requires PlanesBuilt(d, e, calls0, EdgesBefore(d, v), positions, textureWidth) && facadeIndex0 == |calls0|
    ensures PlanesBuilt(d, e, calls, EdgesBefore(d, v + 1), positions, textureWidth) && facadeIndex == |calls|
  {
    calls, facadeIndex := calls0, facadeIndex0;
    ghost var edges := EdgesBefore(d, v);
    var numberOfVolumePoints := |d.plan.volumes[v].points|;
    for f := 0 to numberOfVolumePoints
      invariant edges == EdgesBefore(d, v) + EdgesOfVolume(d, v, f)
      invariant PlanesBuilt(d, e, calls, edges, positions, textureWidth) && facadeIndex == |calls|
    {
      FacadeNumberIndexesEdge(d, v, f);
      VisibleStep(d, e, v, f);
      var visible, plane := PlaneEdge(d, e, v, f, positions, facadeIndex, textureWidth);
      if visible {
        PlanesBuiltAppend(d, e, calls, edges, positions, textureWidth, EdgeAt(d, v, f));
        edges := edges + [EdgeAt(d, v, f)];
        calls := calls + [plane];
        facadeIndex := facadeIndex + 1;
      }
    }
    assert EdgesBefore(d, v + 1) == EdgesBefore(d, v) + EdgesOfVolume(d, v, numberOfVolumePoints);
  }

  /** The facade loop of Build: one plane per visible edge, in planning order, so that edge k
      is textured from packed slot k. */
  method AddFacadePlanes(d: Data, e: Engine, positions: seq<Rect>, textureWidth: int) returns (calls: seq<MeshCall>)
    requires WellFormed(d) && |VisibleEdges(d)| <= |positions|
    ensures PlanesBuilt(d, e, calls, VisibleEdges(d), positions, textureWidth)
  {
    calls := [];
    var facadeIndex := 0;
    for s := 0 to |d.plan.volumes|
      invariant PlanesBuilt(d, e, calls, EdgesBefore(d, s), positions, textureWidth) && facadeIndex == |calls|
    {
      EdgesBeforePrefix(d, s + 1, |d.plan.volumes|);
      calls, facadeIndex := AddVolumePlanes(d, e, s, positions, textureWidth, calls, facadeIndex);
    }
  }

  /** A packed slot in UV units of a square atlas of side textureWidth. */
  function UvRect(r: Rect, textureWidth: int): Rect {
    var w := textureWidth as real;
    Rect(Ratio(r.x, w), Ratio(r.y, w), Ratio(r.width, w), Ratio(r.height, w))
  }

  /** A slot inside the atlas becomes a rectangle inside the unit square. */
  lemma UvRectInUnitSquare(r: Rect, textureWidth: int)
    requires textureWidth > 0 && InBin(r, textureWidth as real)
    ensures InBin(UvRect(r, textureWidth), 1.0)
  {
    var w := textureWidth as real;
    RatioMonotone(0.0, r.x, w);
    RatioMonotone(0.0, r.y, w);
    RatioAtMostOne(r.XMax(), w);
    RatioAtMostOne(r.YMax(), w);
    assert r.x / w + r.width / w == r.XMax() / w;
    assert r.y / w + r.height / w == r.YMax() / w;
  }

  /** The UV rectangles of the slots from roofRectBase on. */
  function RoofUvs(positions: seq<Rect>, roofRectBase: nat, textureWidth: int): (r: seq<Rect>)
    ensures |r| == if roofRectBase <= |positions| then |positions| - roofRectBase else 0
  {
    if roofRectBase > |positions| then []
    else seq(|positions| - roofRectBase, i requires 0 <= i < |positions| - roofRectBase =>
               UvRect(positions[roofRectBase + i], textureWidth))
  }

  /** The roof UV loop of Build. */
  method RoofUvRects(positions: seq<Rect>, roofRectBase: nat, textureWidth: int) returns (newAtlasRects: seq<Rect>)
    ensures newAtlasRects == RoofUvs(positions, roofRectBase, textureWidth)
  {
    newAtlasRects := [];
    var i := roofRectBase;
    while i < |positions|
      invariant roofRectBase <= |positions| ==> roofRectBase <= i <= |positions|
      invariant roofRectBase > |positions| ==> i == roofRectBase
      invariant |newAtlasRects| == i - roofRectBase
      invariant forall k :: 0 <= k < |newAtlasRects| ==> newAtlasRects[k] == UvRect(positions[roofRectBase + k], textureWidth)
      decreases |positions| - i
    {
      var uvRect := Rect(0.0, 0.0, 0.0, 0.0);
      var w := textureWidth as real;
      uvRect := uvRect.(x := Ratio(positions[i].x, w));
      uvRect := uvRect.(y := Ratio(positions[i].y, w));
      uvRect := uvRect.(width := Ratio(positions[i].width, w));
      uvRect := uvRect.(height := Ratio(positions[i].height, w));
      newAtlasRects := newAtlasRects + [uvRect];
      i := i + 1;
    }
  }

  // ---------------------------------------------------------------------------------------
  // Build

  /** What Build plans before painting: the sized slots, how many of them are facades, the
      roof textures and their indices, the packed scale and the atlas width. */
  datatype Layout = Layout(
    positions: seq<Rect>,
    numberOfFacades: nat,
    roofTextureIndex: seq<int>,
    roofTextures: seq<Texture>,
    packedScale: real,
    textureWidth: int)

  /** Every texture index a roof names is a texture of the building. */
  lemma {:induction false} FlattenInRange(d: Data, n: nat)
    requires WellFormed(d) && n <= |d.roofs|
    ensures forall x :: x in Flatten(d.roofs[..n]) ==> 0 <= x < |d.textures|
  {
    if n > 0 {
      FlattenInRange(d, n - 1);
      FlattenSnoc(d.roofs, n - 1);
      forall x | x in Flatten(d.roofs[..n]) ensures 0 <= x < |d.textures| {
        if x !in Flatten(d.roofs[..n - 1]) {
          var j :| 0 <= j < |d.roofs[n - 1].textureValues| && d.roofs[n - 1].textureValues[j] == x;
          RoofIndexInRange(d, n - 1, j);
        }
      }
    }
  }

  /** The distinct roof texture indices, in order of first use. */
  function RoofIndices(d: Data): (r: seq<int>)
    requires WellFormed(d)
    ensures forall k :: 0 <= k < |r| ==> 0 <= r[k] < |d.textures|
  {
    FlattenInRange(d, |d.roofs|);
    assert d.roofs[..|d.roofs|] == d.roofs;
    var r := Dedup(Flatten(d.roofs));
    assert forall k :: 0 <= k < |r| ==> r[k] in r;
    r
  }

  /** The rectangles Build hands to the packer: the facades' then the roofs'. */
  function PlannedRects(d: Data, e: Engine): (r: seq<Rect>)
    requires WellFormed(d)
    ensures |r| == |VisibleEdges(d)| + |RoofIndices(d)|
  {
    EdgesBeforeShape(d, |d.plan.volumes|);
    var edges := VisibleEdges(d);
    var roofIndices := RoofIndices(d);
    seq(|edges|, k requires 0 <= k < |edges| => FacadeRect(d, e, edges[k]))
      + seq(|roofIndices|, k requires 0 <= k < |roofIndices| => RoofRect(e, roofIndices[k]))
  }

  /** The layout Build computes: the planned rectangles packed and then sized. */
  function LayoutOf(d: Data, e: Engine): (l: Layout)
    requires WellFormed(d)
    ensures l.textureWidth >= 0
  {
    var roofIndices := RoofIndices(d);
    var packed := e.pack(PlannedRects(d, e), AtlasPadding);
    Layout(SizedRects(packed.rects, packed.width),
           |VisibleEdges(d)|,
           roofIndices,
           seq(|roofIndices|, k requires 0 <= k < |roofIndices| => d.textures[roofIndices[k]]),
           SizedScale(packed.width),
           SizedWidth(packed.width))
  }

  /** The canvas of a layout: a square buffer of textureWidth pixels a side. */
  function CanvasFor(l: Layout): (c: Canvas)
    requires l.textureWidth >= 0
    ensures c.textureWidth == l.textureWidth >= 0 && c.packedScale == l.packedScale
    ensures c.textureSize == l.textureWidth * l.textureWidth >= 0
  {
    Canvas(l.textureWidth, l.textureWidth * l.textureWidth, l.packedScale)
  }

  /** Build returns normally: BuildTextures does. The mesh steps cannot raise once it has,
      since its facade pass found a slot for every visible edge. */
  predicate BuildOk(d: Data, e: Engine)
    requires WellFormed(d)
  {
    var l := LayoutOf(d, e);
    TexturesOk(CanvasFor(l), d, e, l.positions, l.roofTextures)
  }

  /** The atlas Build produces, row by row: a cleared buffer with every write of BuildTextures. */
  function AtlasPixels(d: Data, e: Engine): (r: seq<Color32>)
    requires WellFormed(d) && BuildOk(d, e)
  {
    var l := LayoutOf(d, e);
    var c := CanvasFor(l);
    ApplyWrites(seq(c.textureSize, _ => Clear), TextureWrites(c, d, e, l.positions, l.roofTextures))
  }

  /** The mesh Build emits for a layout: the undersides when asked for, a plane per visible
      edge cut from its slot, then the roof mesh atlased to the slots after the facades'. */
  function MeshCallsFor(d: Data, e: Engine, positions: seq<Rect>, roofTextureIndex: seq<int>, textureWidth: int): (r: seq<MeshCall>)
    requires WellFormed(d) && |VisibleEdges(d)| <= |positions|
  {
    EdgesBeforeShape(d, |d.plan.volumes|);
    var edges := VisibleEdges(d);
    (if d.drawUnderside then Undersides(d, e) else [])
      + seq(|edges|, k requires 0 <= k < |edges| => FacadePlane(d, e, edges[k], positions[k], textureWidth))
      + [AddAtlasedRoof(roofTextureIndex, RoofUvs(positions, |edges|, textureWidth), 0)]
  }

  function MeshCalls(d: Data, e: Engine): (r: seq<MeshCall>)
    requires WellFormed(d) && |VisibleEdges(d)| <= |LayoutOf(d, e).positions|
  {
    var l := LayoutOf(d, e);
    MeshCallsFor(d, e, l.positions, l.roofTextureIndex, l.textureWidth)
  }

  /** The mesh steps of Build, after the atlas is painted: the undersides, the facade planes
      and the atlased roof, in that order. */
  method BuildMesh(d: Data, e: Engine, positions: seq<Rect>, numberOfFacades: nat, roofTextureIndex: seq<int>, textureWidth: int)
    returns (mesh: seq<MeshCall>)
    requires WellFormed(d) && numberOfFacades == |VisibleEdges(d)| <= |positions|
    ensures mesh == MeshCallsFor(d, e, positions, roofTextureIndex, textureWidth)
  {
    mesh := [];
    if d.drawUnderside {
      mesh := AddUndersides(d, e);
    }
    var planes := AddFacadePlanes(d, e, positions, textureWidth);
    EdgesBeforeShape(d, |d.plan.volumes|);
    var edges := VisibleEdges(d);
    assert planes == seq(|edges|, k requires 0 <= k < |edges| => FacadePlane(d, e, edges[k], positions[k], textureWidth));
    mesh := mesh + planes;
    var newAtlasRects := RoofUvRects(positions, numberOfFacades, textureWidth);
    mesh := mesh + [AddAtlasedRoof(roofTextureIndex, newAtlasRects, 0)];
  }

  /** The planning steps of Build: the facade slots, the roof slots, the packer and the
      sizing, which together give LayoutOf(d, e). */
  method PlanAtlas(d: Data, e: Engine) returns (l: Layout)
    requires WellFormed(d)
    ensures l == LayoutOf(d, e)
  {
    var facadeRects, numberOfFacades := PlanFacadeSlots(d, e);
    var roofRects, roofTextures, roofTextureIndex := PlanRoofSlots(d, e);
    assert facadeRects + roofRects == PlannedRects(d, e);
    var packed := e.pack(facadeRects + roofRects, AtlasPadding);
    var positions, packedScale, textureWidth := SizeAtlas(packed.rects, packed.width);
    assert positions == SizedRects(packed.rects, packed.width);
    l := Layout(positions, numberOfFacades, roofTextureIndex, roofTextures, packedScale, textureWidth);
  }

  /** With a packer that honours its contract and a packed width of at least two pixels, the
      layout has one slot per planned rectangle, every slot keeps the size of its rectangle at
      the packed scale (facade k in slot k, roof texture i in slot numberOfFacades + i), and
      the slots are pairwise disjoint inside the square atlas. */
  lemma LayoutFitsAtlas(d: Data, e: Engine)
    requires WellFormed(d) && PackerHonoursContract(e)
    requires e.pack(PlannedRects(d, e), AtlasPadding).width >= 2
    ensures var l := LayoutOf(d, e);
            var planned := PlannedRects(d, e);
            |l.positions| == |planned| == l.numberOfFacades + |l.roofTextureIndex|
            && l.textureWidth >= 2
            && (forall k :: 0 <= k < |planned| ==>
                  l.positions[k].width == planned[k].width * l.packedScale
                  && l.positions[k].height == planned[k].height * l.packedScale)
            && (forall k :: 0 <= k < |l.positions| ==> InBin(l.positions[k], l.textureWidth as real))
            && (forall i, j :: 0 <= i < j < |l.positions| ==> Disjoint(l.positions[i], l.positions[j]))
  {
    var planned := PlannedRects(d, e);
    var packed := e.pack(planned, AtlasPadding);
    assert PackedBy(planned, packed);
    SizedKeepsSizes(planned, packed);
    SizedFitsAtlas(planned, packed);
  }

  /** The first numberOfFacades planned rectangles are the facades', edge by edge; the rest
      are the roof textures', in order of first use. */
  lemma PlannedRectsOrder(d: Data, e: Engine)
    requires WellFormed(d)
    ensures var planned := PlannedRects(d, e);
            var edges := VisibleEdges(d);
            AllAddressable(d, edges)
            && (forall k :: 0 <= k < |edges| ==> planned[k] == FacadeRect(d, e, edges[k]))
            && (forall i :: 0 <= i < |RoofIndices(d)| ==> planned[|edges| + i] == RoofRect(e, RoofIndices(d)[i]))
  {
    EdgesBeforeShape(d, |d.plan.volumes|);
  }

  /** Under the same conditions every UV Build emits lies in the unit square: the corners of
      every facade plane and every rectangle the roof mesh is atlased to. */
  lemma MeshUvsInUnitSquare(d: Data, e: Engine)
    requires WellFormed(d) && PackerHonoursContract(e)
    requires e.pack(PlannedRects(d, e), AtlasPadding).width >= 2
    ensures var l := LayoutOf(d, e);
            |VisibleEdges(d)| <= |l.positions|
            && (forall k :: 0 <= k < |VisibleEdges(d)| ==>
                  var uvMin := UvMin(l.positions[k], l.textureWidth);
                  var uvMax := UvMax(l.positions[k], l.textureWidth);
                  0.0 <= uvMin.x && 0.0 <= uvMin.y && uvMax.x <= 1.0 && uvMax.y <= 1.0)
            && (forall i :: 0 <= i < |RoofUvs(l.positions, l.numberOfFacades, l.textureWidth)| ==>
                  InBin(RoofUvs(l.positions, l.numberOfFacades, l.textureWidth)[i], 1.0))
  {
    LayoutFitsAtlas(d, e);
    var l := LayoutOf(d, e);
    forall k | 0 <= k < |VisibleEdges(d)|
      ensures var uvMin := UvMin(l.positions[k], l.textureWidth);
              var uvMax := UvMax(l.positions[k], l.textureWidth);
              0.0 <= uvMin.x && 0.0 <= uvMin.y && uvMax.x <= 1.0 && uvMax.y <= 1.0
    {
      PlaneUvsInUnitSquare(l.positions[k], l.textureWidth);
    }
    var uvs := RoofUvs(l.positions, l.numberOfFacades, l.textureWidth);
    forall i | 0 <= i < |uvs| ensures InBin(uvs[i], 1.0) {
      UvRectInUnitSquare(l.positions[l.numberOfFacades + i], l.textureWidth);
    }
  }

  /** A facade pass that draws every visible edge found a slot for each. */
  lemma {:induction false} AcceptedFitsSlots(m: EdgeSemantics, d: Data, positions: seq<Rect>, n: nat)
    requires WellFormed(d) && n <= |VisibleEdges(d)| && PassAccepted(m, d, positions, n)
    ensures n <= |positions|
  {
  }

  /** Build: plans the facade and roof slots, packs and sizes them, paints the atlas and
      emits the mesh. It returns normally exactly when BuildOk holds, and then the atlas is
      AtlasPixels, a square of LayoutOf(d, e).textureWidth pixels a side, and the mesh calls
      are MeshCalls. */
  method Build(d: Data, e: Engine) returns (ok: bool, atlasWidth: int, atlas: seq<Color32>, mesh: seq<MeshCall>)
    requires WellFormed(d)
    ensures ok <==> BuildOk(d, e)
    ensures ok ==> atlasWidth == LayoutOf(d, e).textureWidth
                   && |VisibleEdges(d)| <= |LayoutOf(d, e).positions|
                   && atlas == AtlasPixels(d, e) && mesh == MeshCalls(d, e)
  {
    var l := PlanAtlas(d, e);
    var ctx := new TextureDataContext(l.positions, l.roofTextureIndex, l.roofTextures, l.packedScale, l.textureWidth);
    assert ctx.colourArray[..] == seq(ctx.textureSize, _ => Clear);
    assert ctx.CanvasOf() == CanvasFor(l);
    ok := BuildTextures(d, e, ctx);
    atlasWidth, atlas, mesh := l.textureWidth, [], [];
    if !ok {
      return;
    }
    atlas := ctx.colourArray[..];
    AcceptedFitsSlots(FacadeDraw(CanvasFor(l), d, e), d, l.positions, l.numberOfFacades);
    mesh := BuildMesh(d, e, l.positions, l.numberOfFacades, l.roofTextureIndex, l.textureWidth);
  }
}
